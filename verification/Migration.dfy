/**
 `dbctl migrate reverse-privileges`: integrity checks that report ownership drift and, unless run dry,
 repair it, followed by the default privileges of both directions.
 */
module Migration {
  import opened Text
  import opened Catalog
  import opened Ownership
  import opened Provision

  datatype Diff = Diff(field: string, expected: string, actual: string, destructive: bool)

  // ----- What the checks are for -----------------------------------------------------------------

  function RoleDiff(p: Plan): Diff {
    Diff("ownership.role", p.role, "<missing>", false)
  }

  function UserDiff(p: Plan): Diff {
    Diff("ownership.user", p.user, "<missing>", false)
  }

  function MembershipDiff(p: Plan): Diff {
    Diff("ownership.membership", p.user + " IN ROLE " + p.role, p.user + " not in " + p.role, false)
  }

  function OwnerDiff(p: Plan, actual: string): Diff {
    Diff("ownership.dbOwner", p.role, actual, true)
  }

  function When(condition: bool, d: Diff): seq<Diff> {
    if condition then [d] else []
  }

  /** What is wrong with the ownership of the plan's database. */
  function Drift(p: Plan, v: Server): seq<Diff>
    requires p.db in v.databases
  {
    When(p.role !in v.roles, RoleDiff(p))
    + When(p.user !in v.roles, UserDiff(p))
    + When((p.user, p.role) !in v.memberships, MembershipDiff(p))
    + When(v.databases[p.db] != p.role, OwnerDiff(p, v.databases[p.db]))
  }

  /** What a repairing run reports: creating the role may already have created an equally named user. */
  function RepairDrift(p: Plan, v: Server): seq<Diff>
    requires p.db in v.databases
  {
    When(p.role !in v.roles, RoleDiff(p))
    + When(p.user !in v.roles && p.user != p.role, UserDiff(p))
    + When((p.user, p.role) !in v.memberships, MembershipDiff(p))
    + When(v.databases[p.db] != p.role, OwnerDiff(p, v.databases[p.db]))
  }

  /** The state the repairing checks are meant to reach. */
  function Repaired(p: Plan, schemas: set<string>, v: Server): Server {
    v.(roles := AddIfMissing(AddIfMissing(v.roles, p.role, false), p.user, true),
       memberships := v.memberships + {(p.user, p.role)},
       databases := if p.db in v.databases then v.databases[p.db := p.role] else v.databases,
       defaults := v.defaults + Direction(p.db, schemas, p.standard, p.role, p.user))
  }

  /** The state the whole migration is meant to reach. */
  function Migrated(p: Plan, schemas: set<string>, v: Server): Server {
    var r := Repaired(p, schemas, v);
    r.(defaults := v.defaults + BothWays(p.db, schemas, p.standard, p.role, p.user))
  }

  /** The database exists and the app user can be a member of the owner role. */
  predicate Linkable(p: Plan, v: Server) {
    p.db in v.databases && (p.role != p.user || (p.user, p.role) in v.memberships)
  }

  /** When a repairing run without faults returns no error. */
  predicate Repairable(p: Plan, schemas: set<string>, v: Server) {
    && Linkable(p, v)
    && (schemas != {} ==> DefsTaken(p.standard, v))
    && (v.strictSchemas ==> forall n :: n in schemas ==> n == "" || (p.db, n) in v.schemas)
  }

  // ----- Facts about drift and repair --------------------------------------------------------------

  /** No drift is reported exactly when all ownership facts hold. */
  lemma DriftComplete(p: Plan, v: Server)
    requires p.db in v.databases
    ensures Drift(p, v) == [] <==> Owned(p.db, p.role, p.user, v)
  {}

  /** What is reported, entry by entry: the field, what is expected, what is there, and whether fixing destroys. */
  lemma DriftLiterally(p: Plan, v: Server, d: Diff)
    requires p.db in v.databases
    ensures d in Drift(p, v) <==>
            || (p.role !in v.roles && d == Diff("ownership.role", p.role, "<missing>", false))
            || (p.user !in v.roles && d == Diff("ownership.user", p.user, "<missing>", false))
            || (&& (p.user, p.role) !in v.memberships
                && d == Diff("ownership.membership", p.user + " IN ROLE " + p.role,
                             p.user + " not in " + p.role, false))
            || (v.databases[p.db] != p.role && d == Diff("ownership.dbOwner", p.role, v.databases[p.db], true))
  {
    var a, b := When(p.role !in v.roles, RoleDiff(p)), When(p.user !in v.roles, UserDiff(p));
    var c := When((p.user, p.role) !in v.memberships, MembershipDiff(p));
    var o := When(v.databases[p.db] != p.role, OwnerDiff(p, v.databases[p.db]));
    assert d in Drift(p, v) <==> d in a || d in b || d in c || d in o;
  }

  /** Creating the role can stand in for creating the user only where both are missing under one name. */
  lemma DriftsAgree(p: Plan, v: Server)
    requires p.db in v.databases && (p.user in v.roles || p.user != p.role)
    ensures RepairDrift(p, v) == Drift(p, v)
  {}

  /** Repair is complete and repairing again finds and changes nothing. */
  lemma RepairFixpoint(p: Plan, schemas: set<string>, v: Server)
    requires p.db in v.databases
    ensures Owned(p.db, p.role, p.user, Repaired(p, schemas, v))
    ensures Drift(p, Repaired(p, schemas, v)) == [] && RepairDrift(p, Repaired(p, schemas, v)) == []
    ensures Repaired(p, schemas, Repaired(p, schemas, v)) == Repaired(p, schemas, v)
    ensures Migrated(p, schemas, Migrated(p, schemas, v)) == Migrated(p, schemas, v)
  {
    var r, m := Repaired(p, schemas, v), Migrated(p, schemas, v);
    assert Repaired(p, schemas, r).defaults == r.defaults;
    assert Migrated(p, schemas, m).defaults == m.defaults;
  }

  /** Not even an interrupted later run changes a state that is already repaired. */
  lemma RepairedStays(p: Plan, schemas: set<string>, v: Server, w: Server)
    requires Repaired(p, schemas, v) == v && Between(v, w, Repaired(p, schemas, v))
    ensures w == v
  {
    assert w.roles == v.roles && w.databases == v.databases && w.schemas == v.schemas;
  }

  /** Migration finds nothing to add after provisioning. */
  lemma MigrationAfterProvisioning(p: Plan, v: Server)
    requires p.setDefaults
    ensures Migrated(p, Covered(Names(p.schemas)), Goal(p, v)) == Goal(p, v)
  {
    var g := Goal(p, v);
    assert Migrated(p, Covered(Names(p.schemas)), g).defaults == g.defaults;
  }

  /** Beyond ownership and its default privileges, provisioning adds only the schemas and defaults of the spec. */
  lemma ProvisioningIsMigrationPlusSpec(p: Plan, v: Server)
    requires p.setDefaults && p.db in v.databases
    ensures var m := Migrated(p, Covered(Names(p.schemas)), v);
            Goal(p, v) == m.(schemas := WithSchemas(v.schemas, p.db, p.schemas, v.admin),
                             defaults := m.defaults + SpecEntries(p.db, p.defaults))
  {}

  /** Provisioning after migration reaches the same state as provisioning alone. */
  lemma ProvisioningAfterMigration(p: Plan, v: Server)
    requires p.setDefaults && p.db in v.databases
    ensures Goal(p, Migrated(p, Covered(Names(p.schemas)), v)) == Goal(p, v)
  {
    var m := Migrated(p, Covered(Names(p.schemas)), v);
    ProvisioningIsMigrationPlusSpec(p, v);
    WithSchemasKeys(v.schemas, p.db, p.schemas, v.admin);
    assert Between(v, m, Goal(p, v));
    GoalStable(p, v, m);
  }

  lemma {:induction false} WithSchemasPresent(m: map<(string, string), string>, db: string, schemas: seq<SchemaSpec>,
                                              admin: string)
    requires forall n :: n in Names(schemas) ==> (db, n) in m
    ensures WithSchemas(m, db, schemas, admin) == m
  {
    if schemas == [] {
    } else {
      var rest := schemas[..|schemas| - 1];
      assert Names(rest) <= Names(schemas) && schemas[|schemas| - 1].name in Names(schemas);
      WithSchemasPresent(m, db, rest, admin);
    }
  }

  /** Where the spec's schemas exist and it lists no defaults of its own, the two programs reach one state. */
  lemma MigrationEqualsProvisioning(p: Plan, v: Server)
    requires p.setDefaults && p.db in v.databases && p.defaults == []
    requires forall n :: n in Names(p.schemas) ==> (p.db, n) in v.schemas
    ensures Migrated(p, Covered(Names(p.schemas)), v) == Goal(p, v)
  {
    ProvisioningIsMigrationPlusSpec(p, v);
    WithSchemasPresent(v.schemas, p.db, p.schemas, v.admin);
    assert SpecEntries(p.db, p.defaults) == {};
  }

  // ----- The two programs together -----------------------------------------------------------------

  /** One run of either program, completed or interrupted. */
  ghost predicate EitherRun(p: Plan, v: Server, w: Server) {
    RunOutcome(p, v, w, false) || Between(v, w, Migrated(p, Covered(Names(p.schemas)), v))
  }

  lemma MigrationTowardsGoal(p: Plan, v: Server, w: Server)
    requires p.setDefaults && Between(v, w, Migrated(p, Covered(Names(p.schemas)), v))
    ensures Between(v, w, Goal(p, v))
  {
    var m := Migrated(p, Covered(Names(p.schemas)), v);
    WithSchemasKeys(BaseSchemas(p, v), p.db, p.schemas, v.admin);
    assert Between(v, v, Goal(p, v)) && Between(v, m, Goal(p, v));
    BetweenCompose(v, v, w, m, Goal(p, v));
  }

  /** Migration creates neither databases nor schemas, so it leaves the prospects of a plan alone. */
  lemma MigrationKeepsProspects(p: Plan, v: Server, w: Server)
    requires p.setDefaults && Between(v, w, Goal(p, v))
    requires w.databases.Keys == v.databases.Keys && w.schemas == v.schemas
    ensures Completable(p, w) <==> Completable(p, v)
  {
    forall n ensures SchemaThere(p, n, w) <==> SchemaThere(p, n, v) {}
    CompletableSame(p, v, w);
  }

  lemma MigrationKeeps(p: Plan, schemas: set<string>, v: Server, w: Server)
    requires Between(v, w, Migrated(p, schemas, v))
    ensures w.databases.Keys == v.databases.Keys && w.schemas == v.schemas
  {
    var m := Migrated(p, schemas, v);
    assert m.databases.Keys == v.databases.Keys && m.schemas == v.schemas;
  }

  lemma EitherRunKeeps(p: Plan, v: Server, w: Server)
    requires p.setDefaults && EitherRun(p, v, w)
    ensures Goal(p, w) == Goal(p, v) && (Completable(p, w) <==> Completable(p, v))
  {
    if !RunOutcome(p, v, w, false) {
      MigrationTowardsGoal(p, v, w);
      MigrationKeeps(p, Covered(Names(p.schemas)), v, w);
      MigrationKeepsProspects(p, v, w);
    }
    GoalStable(p, v, w);
  }

  ghost predicate MixedRuns(p: Plan, states: seq<Server>) {
    states != [] && forall i :: 0 <= i < |states| - 1 ==> EitherRun(p, states[i], states[i + 1])
  }

  lemma {:induction false} MixedRunsKeep(p: Plan, states: seq<Server>)
    requires p.setDefaults && MixedRuns(p, states)
    ensures Goal(p, states[|states| - 1]) == Goal(p, states[0])
    ensures Completable(p, states[|states| - 1]) <==> Completable(p, states[0])
  {
    if |states| == 1 {
    } else {
      var init := states[..|states| - 1];
      forall i | 0 <= i < |init| - 1 ensures EitherRun(p, init[i], init[i + 1]) {
        assert EitherRun(p, states[i], states[i + 1]);
      }
      MixedRunsKeep(p, init);
      assert EitherRun(p, states[|states| - 2], states[|states| - 1]);
      EitherRunKeeps(p, states[|states| - 2], states[|states| - 1]);
    }
  }

  /**
   Confluence of the two programs: after any interleaving of runs of either, each interrupted anywhere
   or not at all, a provisioning run that completes reaches what one clean run would have reached from
   the first state; and whether it can complete was settled there.
   */
  lemma MixedConfluence(p: Plan, states: seq<Server>, final: Server, ok: bool)
    requires p.setDefaults && MixedRuns(p, states) && RunOutcome(p, states[|states| - 1], final, ok)
    ensures ok ==> final == Goal(p, states[0]) && Completable(p, states[0])
    ensures Completable(p, final) <==> Completable(p, states[0])
  {
    MixedRunsKeep(p, states);
  }

  // ----- Default privileges of one direction ---------------------------------------------------------

  lemma DirectionStep(db: string, schemas: set<string>, defs: seq<PrivilegeDef>, j: nat, creator: string,
                      grantee: string)
    requires j < |defs|
    ensures var done, all := Direction(db, schemas, defs[..j], creator, grantee),
                             Direction(db, schemas, defs, creator, grantee);
            var one := Direction(db, schemas, [defs[j]], creator, grantee);
            Direction(db, schemas, defs[..j + 1], creator, grantee) == done + one && done + one <= all
  {
    assert defs[..j + 1] == defs[..j] + [defs[j]];
    DirectionSnoc(db, schemas, defs[..j], defs[j], creator, grantee);
    assert defs == defs[..j + 1] + defs[j + 1..];
  }

  lemma DirectionSchema(db: string, x: set<string>, sc: string, all: set<string>, defs: seq<PrivilegeDef>,
                        creator: string, grantee: string)
    requires x + {sc} <= all
    ensures Direction(db, x + {sc}, defs, creator, grantee)
         == Direction(db, x, defs, creator, grantee) + Direction(db, {sc}, defs, creator, grantee)
    ensures Direction(db, x + {sc}, defs, creator, grantee) <= Direction(db, all, defs, creator, grantee)
  {
    DirectionUnion(db, x, {sc}, defs, creator, grantee);
    DirectionUnion(db, x + {sc}, all, defs, creator, grantee);
    assert x + {sc} + all == all;
  }

  method SetSchemaDirection(a: Adapter, db: string, sc: string, defs: seq<PrivilegeDef>, creator: string,
                            grantee: string)
    returns (ok: bool)
    requires defs != [] && AllWellFormed(defs) && db != "" && creator != "" && grantee != ""
    modifies a
    ensures AddsOutcome(old(a.server), a.server, Direction(db, {sc}, defs, creator, grantee),
                        Accepts(old(a.server), db, {sc}, defs, creator, grantee), ok, old(a.faults) == [])
    ensures RecordedAdds(old(a.seen), a.seen, old(a.server), Direction(db, {sc}, defs, creator, grantee))
    ensures old(a.faults) == [] ==> a.faults == []
  {
    var j := 0;
    while j < |defs|
      invariant 0 <= j <= |defs|
      invariant a.server == old(a.server).(defaults := old(a.server).defaults
                                                       + Direction(db, {sc}, defs[..j], creator, grantee))
      invariant RecordedAdds(old(a.seen), a.seen, old(a.server), Direction(db, {sc}, defs, creator, grantee))
      invariant old(a.faults) == [] ==> a.faults == []
      invariant j > 0 ==> Accepts(old(a.server), db, {sc}, defs[..j], creator, grantee)
    {
      ghost var u, t := a.server, a.seen;
      WellFormedAt(defs, j);
      AcceptsStep(old(a.server), u, db, {sc}, defs, j, creator, grantee);
      ok := SetStandard(a, db, sc, creator, defs[j], grantee);
      DirectionStep(db, {sc}, defs, j, creator, grantee);
      Chain(old(a.server), u, a.server, old(a.seen), t, a.seen,
            Direction(db, {sc}, defs[..j], creator, grantee), Direction(db, {sc}, [defs[j]], creator, grantee),
            Direction(db, {sc}, defs[..j + 1], creator, grantee), Direction(db, {sc}, defs, creator, grantee));
      if !ok {
        return;
      }
      j := j + 1;
    }
    assert defs[..j] == defs;
    ok := true;
  }

  /** One direction on every schema of the list. */
  method SetDirection(a: Adapter, db: string, schemas: seq<string>, defs: seq<PrivilegeDef>, creator: string,
                      grantee: string)
    returns (ok: bool)
    requires defs != [] && AllWellFormed(defs) && db != "" && creator != "" && grantee != ""
    modifies a
    ensures AddsOutcome(old(a.server), a.server, Direction(db, AsSet(schemas), defs, creator, grantee),
                        schemas == [] || Accepts(old(a.server), db, AsSet(schemas), defs, creator, grantee),
                        ok, old(a.faults) == [])
    ensures RecordedAdds(old(a.seen), a.seen, old(a.server), Direction(db, AsSet(schemas), defs, creator, grantee))
    ensures old(a.faults) == [] ==> a.faults == []
  {
    ghost var all := AsSet(schemas);
    ghost var done: set<string> := {};
    var i := 0;
    while i < |schemas|
      invariant 0 <= i <= |schemas|
      invariant done <= all && (forall k :: 0 <= k < i ==> schemas[k] in done) && (i == 0 ==> done == {})
      invariant a.server == old(a.server).(defaults := old(a.server).defaults
                                                       + Direction(db, done, defs, creator, grantee))
      invariant RecordedAdds(old(a.seen), a.seen, old(a.server), Direction(db, all, defs, creator, grantee))
      invariant old(a.faults) == [] ==> a.faults == []
      invariant i > 0 ==> Accepts(old(a.server), db, done, defs, creator, grantee)
    {
      ghost var u, t, more := a.server, a.seen, done + {schemas[i]};
      assert schemas[i] in schemas && more <= all && forall k :: 0 <= k < i + 1 ==> schemas[k] in more;
      ok := SetSchemaDirection(a, db, schemas[i], defs, creator, grantee);
      DirectionSchema(db, done, schemas[i], all, defs, creator, grantee);
      Chain(old(a.server), u, a.server, old(a.seen), t, a.seen,
            Direction(db, done, defs, creator, grantee), Direction(db, {schemas[i]}, defs, creator, grantee),
            Direction(db, more, defs, creator, grantee), Direction(db, all, defs, creator, grantee));
      if !ok {
        return;
      }
      done := more;
      i := i + 1;
    }
    assert done == all;
    ok := true;
  }

  // ----- The integrity checks --------------------------------------------------------------------------

  method Enumerate(names: set<string>) returns (r: seq<string>)
    ensures AsSet(r) == names
  {
    r := [];
    var rest := names;
    while rest != {}
      invariant rest <= names && AsSet(r) == names - rest
      decreases |rest|
    {
      var n :| n in rest;
      ghost var before := r;
      r := r + [n];
      assert AsSet(r) == AsSet(before) + {n};
      rest := rest - {n};
    }
  }

  /** The roles `role` is a member of; a missing role is an error. */
  method GetRoleInfo(a: Adapter, role: string) returns (ok: bool, inRoles: seq<string>)
    modifies a
    ensures a.server == old(a.server) && a.seen == old(a.seen) + {a.server}
    ensures ok == (NextFault(old(a.faults)) == NoFault && role in a.server.roles)
    ensures ok ==> forall r :: r in inRoles <==> (role, r) in a.server.memberships
    ensures old(a.faults) == [] ==> a.faults == []
  {
    inRoles := [];
    ok := a.Query();
    if !ok || role !in a.server.roles {
      return false, [];
    }
    inRoles := Enumerate(set m | m in a.server.memberships && m.0 == role :: m.1);
    assert forall r :: (role, r) in a.server.memberships ==> r in AsSet(inRoles);
    assert forall r :: r in inRoles ==> r in AsSet(inRoles);
  }

  /** What one check leaves behind: a dry check changes nothing, a repairing one moves towards `t`. */
  ghost predicate CheckOutcome(dry: bool, v: Server, w: Server, t: Server, ok: bool) {
    if dry then w == v else Between(v, w, t) && (ok ==> w == t)
  }

  predicate MembershipCheckable(p: Plan, dry: bool, v: Server) {
    && p.user in v.roles
    && (dry || (p.user, p.role) in v.memberships || (p.role in v.roles && p.role != p.user))
  }

  predicate OwnerCheckable(p: Plan, dry: bool, v: Server) {
    p.db in v.databases && (dry || v.databases[p.db] == p.role || p.role in v.roles)
  }

  /** The state after the first `k` repairing checks. */
  function Stage(p: Plan, schemas: set<string>, k: nat, v: Server): Server {
    v.(roles :=
         (if k == 0 then v.roles
          else if k == 1 then AddIfMissing(v.roles, p.role, false)
          else AddIfMissing(AddIfMissing(v.roles, p.role, false), p.user, true)),
       memberships := (if k < 3 then v.memberships else v.memberships + {(p.user, p.role)}),
       databases := (if k >= 4 && p.db in v.databases then v.databases[p.db := p.role] else v.databases),
       defaults := (if k < 5 then v.defaults else v.defaults + Direction(p.db, schemas, p.standard, p.role, p.user)))
  }

  lemma StageBetween(p: Plan, schemas: set<string>, k: nat, v: Server)
    requires k <= 5
    ensures Between(v, Stage(p, schemas, k, v), Repaired(p, schemas, v))
    ensures k == 5 ==> Stage(p, schemas, k, v) == Repaired(p, schemas, v)
  {}

  /** A check between two stages lies on the way from start to repair. */
  lemma StageStep(p: Plan, schemas: set<string>, k: nat, v: Server, w: Server, seen: set<Server>, seen': set<Server>)
    requires k < 5 && Between(Stage(p, schemas, k, v), w, Stage(p, schemas, k + 1, v))
    requires Recorded(seen, seen', Stage(p, schemas, k, v), Stage(p, schemas, k + 1, v))
    ensures Between(v, w, Repaired(p, schemas, v)) && Recorded(seen, seen', v, Repaired(p, schemas, v))
  {
    StageBetween(p, schemas, k, v);
    StageBetween(p, schemas, k + 1, v);
    BetweenCompose(v, Stage(p, schemas, k, v), w, Stage(p, schemas, k + 1, v), Repaired(p, schemas, v));
    RecordedLift(seen, seen', v, Stage(p, schemas, k, v), Stage(p, schemas, k + 1, v), Repaired(p, schemas, v));
  }

  class IntegrityCheck {
    const adapter: Adapter
    const p: Plan
    const dry: bool
    var diffs: seq<Diff>
    var fixed: nat
    var checked: nat

    constructor (adapter: Adapter, p: Plan, dry: bool)
      ensures this.adapter == adapter && this.p == p && this.dry == dry
      ensures diffs == [] && fixed == 0 && checked == 0
    {
      this.adapter, this.p, this.dry := adapter, p, dry;
      diffs, fixed, checked := [], 0, 0;
    }

    /** Every diff of a repairing run so far has been fixed, and a dry run has fixed none. */
    ghost predicate Balanced() reads this {
      fixed == if dry then 0 else |diffs|
    }

    /** A role that must exist: the owner role without login, the app user with login. */
    method CheckRole(role: string, login: bool, missing: Diff) returns (ok: bool)
      requires Balanced()
      modifies this, adapter
      ensures CheckOutcome(dry, old(adapter.server), adapter.server,
                           old(adapter.server).(roles := AddIfMissing(old(adapter.server).roles, role, login)), ok)
      ensures Recorded(old(adapter.seen), adapter.seen, old(adapter.server),
                       old(adapter.server).(roles := AddIfMissing(old(adapter.server).roles, role, login)))
      ensures ok ==> diffs == old(diffs) + When(role !in old(adapter.server).roles, missing) && Balanced()
      ensures checked == old(checked) + 1 && (dry ==> adapter.seen <= old(adapter.seen) + {old(adapter.server)})
      ensures old(adapter.faults) == [] ==> ok && adapter.faults == []
    {
      checked := checked + 1;
      var found;
      ok, found := adapter.RoleExists(role);
      if !ok {
        return;
      }
      if !found {
        diffs := diffs + [missing];
        if !dry {
          ok := adapter.Exec(CreateRole(role, login));
          if !ok {
            return;
          }
          fixed := fixed + 1;
        }
      }
    }

    method CheckMembership() returns (ok: bool)
      requires Balanced()
      modifies this, adapter
      ensures CheckOutcome(dry, old(adapter.server), adapter.server,
                           old(adapter.server).(memberships := old(adapter.server).memberships + {(p.user, p.role)}),
                           ok)
      ensures Recorded(old(adapter.seen), adapter.seen, old(adapter.server),
                       old(adapter.server).(memberships := old(adapter.server).memberships + {(p.user, p.role)}))
      ensures ok ==>
                && diffs == old(diffs) + When((p.user, p.role) !in old(adapter.server).memberships, MembershipDiff(p))
                && Balanced()
      ensures checked == old(checked) + 1 && (dry ==> adapter.seen <= old(adapter.seen) + {old(adapter.server)})
      ensures ok ==> p.user in old(adapter.server).roles
      ensures ok && !dry ==> (p.user, p.role) in old(adapter.server).memberships || p.role != p.user
      ensures old(adapter.faults) == [] ==> adapter.faults == []
      ensures old(adapter.faults) == [] ==> ok == MembershipCheckable(p, dry, old(adapter.server))
    {
      checked := checked + 1;
      var inRoles;
      ok, inRoles := GetRoleInfo(adapter, p.user);
      if !ok {
        return;
      }
      var member := false;
      for i := 0 to |inRoles|
        invariant member <==> p.role in inRoles[..i]
      {
        if inRoles[i] == p.role {
          member := true;
          assert inRoles[i] in inRoles;
          break;
        }
      }
      assert !member ==> inRoles[..|inRoles|] == inRoles;
      assert member <==> (p.user, p.role) in adapter.server.memberships;
      if !member {
        diffs := diffs + [MembershipDiff(p)];
        if !dry {
          ok := adapter.Exec(GrantMembership(p.role, p.user));
          if !ok {
            return;
          }
          fixed := fixed + 1;
        }
      }
    }

    method CheckOwner() returns (ok: bool)
      requires Balanced()
      modifies this, adapter
      ensures var v := old(adapter.server);
              var t := v.(databases := if p.db in v.databases then v.databases[p.db := p.role] else v.databases);
              CheckOutcome(dry, v, adapter.server, t, ok) && Recorded(old(adapter.seen), adapter.seen, v, t)
      ensures ok ==> p.db in old(adapter.server).databases && Balanced()
                     && diffs == old(diffs) + When(old(adapter.server).databases[p.db] != p.role,
                                                   OwnerDiff(p, old(adapter.server).databases[p.db]))
      ensures checked == old(checked) + 1 && (dry ==> adapter.seen <= old(adapter.seen) + {old(adapter.server)})
      ensures old(adapter.faults) == [] ==> adapter.faults == []
      ensures old(adapter.faults) == [] ==> ok == OwnerCheckable(p, dry, old(adapter.server))
    {
      checked := checked + 1;
      ok := adapter.Query();
      if !ok || p.db !in adapter.server.databases {
        return false;
      }
      var owner := adapter.server.databases[p.db];
      if owner != p.role {
        diffs := diffs + [OwnerDiff(p, owner)];
        if !dry {
          ok := adapter.Exec(AlterOwner(p.db, p.role));
          if !ok {
            return;
          }
          fixed := fixed + 1;
        }
      }
    }

    /** The four checks a dry run makes; it never reaches the adapter with a statement. */
    method RunDry() returns (ok: bool)
      requires dry && diffs == [] && fixed == 0 && checked == 0
      modifies this, adapter
      ensures adapter.server == old(adapter.server)
      ensures forall x :: x in adapter.seen ==> x in old(adapter.seen) || x == old(adapter.server)
      ensures ok ==> p.db in adapter.server.databases && p.user in adapter.server.roles
                     && diffs == Drift(p, adapter.server) && fixed == 0 && checked == 5
      ensures old(adapter.faults) == [] ==> adapter.faults == []
      ensures old(adapter.faults) == [] ==> ok == (p.db in adapter.server.databases && p.user in adapter.server.roles)
    {
      ok := CheckRole(p.role, false, RoleDiff(p));
      if !ok { return; }
      ok := CheckRole(p.user, true, UserDiff(p));
      if !ok { return; }
      ok := CheckMembership();
      if !ok { return; }
      ok := CheckOwner();
      if !ok { return; }
      checked := checked + 1;
    }

    /** Checks 1 and 2, repairing what they find. */
    method RepairRoles(ghost s: set<string>) returns (ok: bool)
      requires !dry && diffs == [] && fixed == 0 && checked == 0
      modifies this, adapter
      ensures Between(old(adapter.server), adapter.server, Repaired(p, s, old(adapter.server)))
      ensures Recorded(old(adapter.seen), adapter.seen, old(adapter.server), Repaired(p, s, old(adapter.server)))
      ensures ok ==> adapter.server == Stage(p, s, 2, old(adapter.server)) && checked == 2 && fixed == |diffs|
      ensures ok ==> diffs == When(p.role !in old(adapter.server).roles, RoleDiff(p))
                              + When(p.user !in old(adapter.server).roles && p.user != p.role, UserDiff(p))
      ensures old(adapter.faults) == [] ==> ok && adapter.faults == []
    {
      ghost var v, seen := adapter.server, adapter.seen;
      ok := CheckRole(p.role, false, RoleDiff(p));
      StageStep(p, s, 0, v, adapter.server, seen, adapter.seen);
      if !ok {
        return;
      }
      seen := adapter.seen;
      ok := CheckRole(p.user, true, UserDiff(p));
      StageStep(p, s, 1, v, adapter.server, seen, adapter.seen);
    }

    /** Checks 3 and 4, repairing what they find. */
    method RepairLinks(ghost s: set<string>, ghost v: Server) returns (ok: bool)
      requires !dry && Balanced() && adapter.server == Stage(p, s, 2, v)
      modifies this, adapter
      ensures Between(v, adapter.server, Repaired(p, s, v))
      ensures Recorded(old(adapter.seen), adapter.seen, v, Repaired(p, s, v))
      ensures ok ==> adapter.server == Stage(p, s, 4, v) && checked == old(checked) + 2 && Balanced()
      ensures ok ==> p.db in v.databases && diffs == old(diffs)
                       + When((p.user, p.role) !in v.memberships, MembershipDiff(p))
                       + When(v.databases[p.db] != p.role, OwnerDiff(p, v.databases[p.db]))
      ensures old(adapter.faults) == [] ==> adapter.faults == []
      ensures ok || old(adapter.faults) == [] ==> ok == Linkable(p, v)
    {
      ghost var seen := adapter.seen;
      ok := CheckMembership();
      StageStep(p, s, 2, v, adapter.server, seen, adapter.seen);
      if !ok {
        return;
      }
      seen := adapter.seen;
      ok := CheckOwner();
      StageStep(p, s, 3, v, adapter.server, seen, adapter.seen);
    }

    /** The first four checks, repairing what they find. */
    method RepairOwnership(ghost s: set<string>) returns (ok: bool)
      requires !dry && diffs == [] && fixed == 0 && checked == 0
      modifies this, adapter
      ensures Between(old(adapter.server), adapter.server, Repaired(p, s, old(adapter.server)))
      ensures Recorded(old(adapter.seen), adapter.seen, old(adapter.server), Repaired(p, s, old(adapter.server)))
      ensures ok ==> adapter.server == Stage(p, s, 4, old(adapter.server)) && p.db in old(adapter.server).databases
      ensures ok ==> diffs == RepairDrift(p, old(adapter.server)) && fixed == |diffs| && checked == 4
      ensures old(adapter.faults) == [] ==> adapter.faults == []
      ensures ok || old(adapter.faults) == [] ==> ok == Linkable(p, old(adapter.server))
    {
      ghost var v := adapter.server;
      ok := RepairRoles(s);
      if ok {
        ok := RepairLinks(s, v);
      }
    }

    /** The repairing run. */
    method RunRepair(schemas: seq<string>) returns (ok: bool)
      requires !dry && diffs == [] && fixed == 0 && checked == 0
      requires p.db != "" && p.role != "" && p.user != "" && p.standard != [] && AllWellFormed(p.standard)
      modifies this, adapter
      ensures Between(old(adapter.server), adapter.server, Repaired(p, AsSet(schemas), old(adapter.server)))
      ensures Recorded(old(adapter.seen), adapter.seen, old(adapter.server),
                       Repaired(p, AsSet(schemas), old(adapter.server)))
      ensures ok ==> adapter.server == Repaired(p, AsSet(schemas), old(adapter.server))
                     && Repairable(p, AsSet(schemas), old(adapter.server))
                     && diffs == RepairDrift(p, old(adapter.server)) && fixed == |diffs| && checked == 5
      ensures old(adapter.faults) == [] ==> adapter.faults == []
      ensures old(adapter.faults) == [] ==> ok == Repairable(p, AsSet(schemas), old(adapter.server))
    {
      ghost var v, s := adapter.server, AsSet(schemas);
      ok := RepairOwnership(s);
      if !ok {
        return;
      }
      checked := checked + 1;
      ghost var seen := adapter.seen;
      ok := SetDirection(adapter, p.db, schemas, p.standard, p.role, p.user);
      ForwardOutcome(p, schemas, v, adapter.server, seen, adapter.seen, ok, old(adapter.faults) == []);
    }
  }

  lemma AcceptsAfterRepair(p: Plan, schemas: seq<string>, v: Server)
    requires Linkable(p, v)
    ensures schemas == [] || Accepts(Stage(p, AsSet(schemas), 4, v), p.db, AsSet(schemas), p.standard, p.role, p.user)
            <==> Repairable(p, AsSet(schemas), v)
  {
    DefsTakenSame(p.standard, v, Stage(p, AsSet(schemas), 4, v));
    if schemas == [] {
      assert AsSet(schemas) == {};
    } else {
      assert schemas[0] in AsSet(schemas);
    }
  }

  lemma ForwardOutcome(p: Plan, schemas: seq<string>, v: Server, w: Server, seen: set<Server>, seen': set<Server>,
                       ok: bool, clean: bool)
    requires Linkable(p, v)
    requires var u, e := Stage(p, AsSet(schemas), 4, v), Direction(p.db, AsSet(schemas), p.standard, p.role, p.user);
             && RecordedAdds(seen, seen', u, e)
             && AddsOutcome(u, w, e, schemas == [] || Accepts(u, p.db, AsSet(schemas), p.standard, p.role, p.user),
                            ok, clean)
    ensures Between(v, w, Repaired(p, AsSet(schemas), v)) && Recorded(seen, seen', v, Repaired(p, AsSet(schemas), v))
    ensures ok ==> w == Repaired(p, AsSet(schemas), v)
    ensures ok || clean ==> ok == Repairable(p, AsSet(schemas), v)
  {
    var s := AsSet(schemas);
    RecordedFromAdds(seen, seen', Stage(p, s, 4, v), Direction(p.db, s, p.standard, p.role, p.user));
    StageStep(p, s, 4, v, w, seen, seen');
    StageBetween(p, s, 5, v);
    AcceptsAfterRepair(p, schemas, v);
  }

  /**
   A dry run, then the repairing run from the state it left: whenever both report a list, it is the same
   list, whatever the names and whatever faults either met on the way. Without faults the dry run reports
   exactly if database and user exist, and then repair succeeds exactly if it can be carried out.
   */
  method DryThenRepair(a: Adapter, p: Plan, schemas: seq<string>)
    returns (predicted: Option<seq<Diff>>, repaired: Option<seq<Diff>>, fixed: nat)
    requires p.db != "" && p.role != "" && p.user != "" && p.standard != [] && AllWellFormed(p.standard)
    modifies a
    ensures predicted.Some? && repaired.Some? ==> predicted == repaired
    ensures repaired.Some? ==> fixed == |repaired.value| && a.server == Repaired(p, AsSet(schemas), old(a.server))
    ensures predicted.Some? ==> (predicted.value == [] <==> Owned(p.db, p.role, p.user, old(a.server)))
    ensures Between(old(a.server), a.server, Repaired(p, AsSet(schemas), old(a.server)))
    ensures old(a.faults) == [] ==>
              (predicted.Some? <==> p.db in old(a.server).databases && p.user in old(a.server).roles)
    ensures old(a.faults) == [] ==> (repaired.Some? <==> Repairable(p, AsSet(schemas), old(a.server)))
  {
    var check := new IntegrityCheck(a, p, true);
    var ok := check.RunDry();
    predicted := if ok then Some(check.diffs) else None;
    if ok {
      DriftComplete(p, a.server);
      DriftsAgree(p, a.server);
    }
    check := new IntegrityCheck(a, p, false);
    ok := check.RunRepair(schemas);
    repaired := if ok then Some(check.diffs) else None;
    fixed := check.fixed;
  }

  /**
   Repair, and then repair again under any faults: once the first run returns without error, the second
   changes nothing at any moment, reports nothing if it returns, and returns if it meets no fault.
   */
  method RepairTwice(a: Adapter, p: Plan, schemas: seq<string>, again: seq<Fault>)
    returns (ok: bool, ok': bool, diffs': seq<Diff>, fixed': nat)
    requires p.db != "" && p.role != "" && p.user != "" && p.standard != [] && AllWellFormed(p.standard)
    modifies a
    ensures ok ==> a.server == Repaired(p, AsSet(schemas), old(a.server)) && Owned(p.db, p.role, p.user, a.server)
    ensures ok && ok' ==> diffs' == [] && fixed' == 0
    ensures ok && again == [] ==> ok'
  {
    ghost var v, s := a.server, AsSet(schemas);
    var check := new IntegrityCheck(a, p, false);
    ok := check.RunRepair(schemas);
    diffs', fixed', ok' := [], 0, false;
    if !ok {
      return;
    }
    RepairFixpoint(p, s, v);
    RepairableStays(p, s, v);
    ghost var r := a.server;
    a.faults := again;
    check := new IntegrityCheck(a, p, false);
    ok' := check.RunRepair(schemas);
    diffs', fixed' := check.diffs, check.fixed;
    RepairedStays(p, s, r, a.server);
  }

  lemma RepairableStays(p: Plan, schemas: set<string>, v: Server)
    requires Repairable(p, schemas, v)
    ensures Repairable(p, schemas, Repaired(p, schemas, v))
  {
    DefsTakenSame(p.standard, v, Repaired(p, schemas, v));
  }

  // ----- The migration -------------------------------------------------------------------------------------

  lemma AddsNothing(v: Server, w: Server, more: set<DefaultEntry>)
    requires Adds(v, w, more) && more <= v.defaults
    ensures w == v
  {
    assert w.defaults == v.defaults;
  }

  /** Reverse privileges on top of a repaired state complete the migration. */
  lemma ReverseOutcome(p: Plan, s: set<string>, v: Server, w: Server, seen: set<Server>, seen': set<Server>, ok: bool)
    requires var u, e := Repaired(p, s, v), Direction(p.db, s, p.standard, p.user, p.role);
             RecordedAdds(seen, seen', u, e) && Adds(u, w, e) && (ok ==> w.defaults == u.defaults + e)
    ensures Between(v, w, Migrated(p, s, v)) && Recorded(seen, seen', v, Migrated(p, s, v))
    ensures ok ==> w == Migrated(p, s, v)
  {
    var u, t, e := Repaired(p, s, v), Migrated(p, s, v), Direction(p.db, s, p.standard, p.user, p.role);
    assert t == u.(defaults := u.defaults + e);
    StageBetween(p, s, 5, v);
    assert Between(v, u, t) && Between(v, t, t) && Between(u, w, t);
    RecordedFromAdds(seen, seen', u, e);
    RecordedLift(seen, seen', v, u, t, t);
    BetweenCompose(v, u, w, t, t);
  }

  lemma RepairedWithinMigrated(p: Plan, s: set<string>, v: Server, w: Server, seen: set<Server>, seen': set<Server>)
    requires Between(v, w, Repaired(p, s, v)) && Recorded(seen, seen', v, Repaired(p, s, v))
    ensures Between(v, w, Migrated(p, s, v)) && Recorded(seen, seen', v, Migrated(p, s, v))
  {
    var u, t := Repaired(p, s, v), Migrated(p, s, v);
    StageBetween(p, s, 5, v);
    assert Between(v, u, t) && Between(v, v, t);
    BetweenCompose(v, v, w, u, t);
    RecordedLift(seen, seen', v, v, u, t);
  }

  /** Integrity checks with repair, then forward and reverse default privileges over all schemas. */
  method Migrate(a: Adapter, p: Plan, order: seq<string>) returns (ok: bool, diffs: seq<Diff>)
    requires AsSet(order) == Covered(Names(p.schemas))
    requires p.db != "" && p.role != "" && p.user != "" && p.standard != [] && AllWellFormed(p.standard)
    modifies a
    ensures !p.setDefaults ==> ok && a.server == old(a.server) && diffs == []
    ensures p.setDefaults ==> Between(old(a.server), a.server, Migrated(p, Covered(Names(p.schemas)), old(a.server)))
    ensures p.setDefaults ==>
              Recorded(old(a.seen), a.seen, old(a.server), Migrated(p, Covered(Names(p.schemas)), old(a.server)))
    ensures p.setDefaults && ok ==> a.server == Migrated(p, Covered(Names(p.schemas)), old(a.server))
    ensures p.setDefaults && ok ==> p.db in old(a.server).databases && diffs == RepairDrift(p, old(a.server))
    ensures p.setDefaults && old(a.faults) == [] ==> ok == Repairable(p, Covered(Names(p.schemas)), old(a.server))
  {
    if !p.setDefaults {
      return true, [];
    }
    ghost var v, s := a.server, AsSet(order);
    var check := new IntegrityCheck(a, p, false);
    ok := check.RunRepair(order);
    diffs := check.diffs;
    RepairedWithinMigrated(p, s, v, a.server, old(a.seen), a.seen);
    if !ok {
      return;
    }
    ghost var seen := a.seen;
    ok := SetDirection(a, p.db, order, p.standard, p.role, p.user);
    AddsNothing(Repaired(p, s, v), a.server, Direction(p.db, s, p.standard, p.role, p.user));
    RecordedForward(p, s, v, seen, a.seen);
    if !ok {
      return;
    }
    seen := a.seen;
    ok := SetDirection(a, p.db, order, p.standard, p.user, p.role);
    ReverseOutcome(p, s, v, a.server, seen, a.seen, ok);
  }

  lemma RecordedForward(p: Plan, s: set<string>, v: Server, seen: set<Server>, seen': set<Server>)
    requires RecordedAdds(seen, seen', Repaired(p, s, v), Direction(p.db, s, p.standard, p.role, p.user))
    ensures Recorded(seen, seen', v, Migrated(p, s, v))
  {
    StageBetween(p, s, 5, v);
    assert Between(v, Repaired(p, s, v), Migrated(p, s, v));
    forall x | x in seen' && x !in seen ensures Between(v, x, Migrated(p, s, v)) {
      AddsNothing(Repaired(p, s, v), x, Direction(p.db, s, p.standard, p.role, p.user));
    }
  }
}
