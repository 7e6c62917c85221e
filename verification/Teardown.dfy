/** Dropping the owner role and the app user: best-effort cleanup whose errors are mostly discarded. */
module Teardown {
  import opened Catalog

  /** A server together with what will happen to the calls still to come. */
  datatype World = World(server: Server, faults: seq<Fault>)

  function Sent(s: Stmt, w: World): World {
    World(After(NextFault(w.faults), s, w.server), if w.faults == [] then [] else w.faults[1..])
  }

  /** REASSIGN OWNED and DROP OWNED have been sent for `role`. */
  function Cleaned(role: string, w: World): World {
    Sent(DropOwned(role), Sent(ReassignOwned(role), w))
  }

  function Dropped(role: string, w: World): World {
    if role == "" then w else Sent(DropRoleIfExists(role), Cleaned(role, w))
  }

  /** The DROP ROLE of `role`, sent in world `w`, is answered without error. */
  predicate DropAnswered(role: string, w: World) {
    || role == ""
    || (NextFault(Cleaned(role, w).faults) == NoFault && Legal(DropRoleIfExists(role), Cleaned(role, w).server))
  }

  method DropRole(a: Adapter, role: string) returns (ok: bool)
    requires role != ""
    modifies a
    ensures World(a.server, a.faults) == Dropped(role, World(old(a.server), old(a.faults)))
    ensures ok == DropAnswered(role, World(old(a.server), old(a.faults)))
  {
    var _ := a.Exec(ReassignOwned(role));
    var _ := a.Exec(DropOwned(role));
    ok := a.Exec(DropRoleIfExists(role));
  }

  /** The user goes first and its failure is only logged; the role decides the outcome. */
  method DropOwnershipResources(a: Adapter, role: string, user: string) returns (ok: bool)
    modifies a
    ensures World(a.server, a.faults) == Dropped(role, Dropped(user, World(old(a.server), old(a.faults))))
    ensures ok == DropAnswered(role, Dropped(user, World(old(a.server), old(a.faults))))
    ensures ok ==> role == "" || role !in a.server.roles
  {
    if user != "" {
      var _ := DropRole(a, user);
    }
    if role != "" {
      ok := DropRole(a, role);
      return;
    }
    ok := true;
  }

  // ----- What happens to objects -------------------------------------------------------------------

  predicate Reaches(fault: Fault) {
    fault != RequestLost
  }

  /** The fault that the second of the next two calls meets. */
  function SecondFault(faults: seq<Fault>): Fault {
    if |faults| < 2 then NoFault else faults[1]
  }

  /** Objects of `role` are dropped rather than handed over. */
  predicate Loses(role: string, w: World) {
    && role != "" && role in w.server.roles && role in w.server.objects.Values
    && Reaches(SecondFault(w.faults)) && (!Reaches(NextFault(w.faults)) || role == w.server.admin)
  }

  function HandedOver(role: string, w: World): map<Obj, string> {
    if role in w.server.roles && Reaches(NextFault(w.faults)) then Reassign(w.server.objects, role, w.server.admin)
    else w.server.objects
  }

  function Without(owners: map<Obj, string>, role: string): map<Obj, string> {
    map o | o in owners && owners[o] != role :: owners[o]
  }

  /** The objects after one drop, from the two cleanup statements alone. */
  lemma ObjectsAfterDrop(role: string, w: World)
    requires role != ""
    ensures Dropped(role, w).server.objects ==
            if role in w.server.roles && Reaches(SecondFault(w.faults)) then Without(HandedOver(role, w), role)
            else HandedOver(role, w)
  {
    SentReassign(role, w);
    SentDropOwned(role, Sent(ReassignOwned(role), w));
    SentDropRole(role, Cleaned(role, w));
  }

  lemma SentReassign(role: string, w: World)
    ensures var x := Sent(ReassignOwned(role), w);
            && x.server.objects == HandedOver(role, w) && NextFault(x.faults) == SecondFault(w.faults)
            && x.server.roles == w.server.roles && x.server.admin == w.server.admin
  {}

  lemma SentDropOwned(role: string, w: World)
    ensures var x := Sent(DropOwned(role), w).server;
            && x.objects == (if role in w.server.roles && Reaches(NextFault(w.faults))
                             then Without(w.server.objects, role) else w.server.objects)
            && x.roles == w.server.roles && x.admin == w.server.admin
  {}

  lemma SentDropRole(role: string, w: World)
    ensures var x := Sent(DropRoleIfExists(role), w).server;
            && x.objects == w.server.objects && x.admin == w.server.admin
            && (x.roles == w.server.roles || x.roles == w.server.roles - {role})
            && (role in w.server.objects.Values ==> x.roles == w.server.roles)
  {}

  /** Exactly when dropping one role makes objects disappear. */
  lemma ObjectsLostExactly(role: string, w: World)
    ensures Dropped(role, w).server.objects.Keys == w.server.objects.Keys <==> !Loses(role, w)
    ensures Dropped(role, w).server.objects.Keys <= w.server.objects.Keys
  {
    if role != "" {
      ObjectsAfterDrop(role, w);
      if Loses(role, w) {
        var o :| o in w.server.objects && w.server.objects[o] == role;
        assert o !in Without(HandedOver(role, w), role);
      } else if role in w.server.roles && Reaches(SecondFault(w.faults)) {
        assert forall o :: o in w.server.objects ==> HandedOver(role, w)[o] != role;
      }
    }
  }

  /** A role whose REASSIGN takes effect hands all its objects to the operator and nothing else moves. */
  lemma ObjectsHandedOver(role: string, w: World)
    requires role != "" && role in w.server.roles && role != w.server.admin && Reaches(NextFault(w.faults))
    ensures Dropped(role, w).server.objects == Reassign(w.server.objects, role, w.server.admin)
  {
    ObjectsAfterDrop(role, w);
    var v := w.server;
    assert forall o :: o in v.objects ==> Reassign(v.objects, role, v.admin)[o] != role;
    assert Without(Reassign(v.objects, role, v.admin), role) == Reassign(v.objects, role, v.admin);
  }

  lemma AbsentRoleIsNoOp(role: string, w: World)
    requires role == "" || role !in w.server.roles
    ensures Dropped(role, w).server.objects == w.server.objects
    ensures Dropped(role, w).server.roles == w.server.roles
  {}

  /** The REASSIGN of each principal that exists takes effect in a run of the teardown. */
  predicate ReassignsReach(role: string, user: string, w: World) {
    && (user in w.server.roles ==> Reaches(NextFault(w.faults)))
    && (role in Dropped(user, w).server.roles ==> Reaches(NextFault(Dropped(user, w).faults)))
  }

  /** What happens to statement number `i` of a run. */
  function FaultAt(faults: seq<Fault>, i: nat): Fault {
    if i < |faults| then faults[i] else NoFault
  }

  /** The number of the statement with which the role's turn begins. */
  function RoleTurn(user: string): nat {
    if user == "" then 0 else 3
  }

  predicate Owns(principal: string, v: Server) {
    principal in v.objects.Values
  }

  /** Statement `i`, a REASSIGN, hands over nothing, and DROP OWNED behind it arrives. */
  predicate DropsWithoutHandover(principal: string, i: nat, w: World) {
    Reaches(FaultAt(w.faults, i + 1)) && (!Reaches(FaultAt(w.faults, i)) || principal == w.server.admin)
  }

  /**
   The teardown destroys objects, read off the start state and the fate of its six statements. In the
   role's turn there may be objects to destroy that were the user's: where both are one principal and
   the user's turn left them alone, or where the role is the operator, to whom they were handed.
   */
  predicate TeardownLoses(role: string, user: string, w: World) {
    var v, f := w.server, w.faults;
    || (user != "" && user in v.roles && Owns(user, v) && DropsWithoutHandover(user, 0, w))
    || (&& role != "" && role in v.roles && DropsWithoutHandover(role, RoleTurn(user), w)
        && if role == user then Owns(role, v) && !Reaches(FaultAt(f, 1)) && (!Reaches(FaultAt(f, 0)) || role == v.admin)
           else || Owns(role, v)
                || (role == v.admin && user != "" && user in v.roles && Owns(user, v) && Reaches(FaultAt(f, 0))))
  }

  lemma FaultsAfterDrop(user: string, w: World)
    ensures NextFault(Dropped(user, w).faults) == FaultAt(w.faults, RoleTurn(user))
    ensures SecondFault(Dropped(user, w).faults) == FaultAt(w.faults, RoleTurn(user) + 1)
  {
    if user != "" {
      var w1 := Sent(ReassignOwned(user), w);
      var w2 := Sent(DropOwned(user), w1);
      forall i: nat ensures FaultAt(Sent(DropRoleIfExists(user), w2).faults, i) == FaultAt(w.faults, i + 3) {
        FaultShift(ReassignOwned(user), w, i + 2);
        FaultShift(DropOwned(user), w1, i + 1);
        FaultShift(DropRoleIfExists(user), w2, i);
      }
    }
  }

  lemma FaultShift(s: Stmt, w: World, i: nat)
    ensures FaultAt(Sent(s, w).faults, i) == FaultAt(w.faults, i + 1)
  {}

  lemma OwnsAfterDrop(user: string, w: World, r: string)
    requires user != "" && r != user
    ensures Owns(r, Dropped(user, w).server) <==>
            || Owns(r, w.server)
            || (&& r == w.server.admin && user in w.server.roles && Owns(user, w.server)
                && Reaches(NextFault(w.faults)))
  {
    var before, after := w.server.objects, Dropped(user, w).server.objects;
    ObjectsAfterDrop(user, w);
    if Owns(r, w.server) {
      var o :| o in before && before[o] == r;
      assert o in after && after[o] == r;
    }
    if r == w.server.admin && user in w.server.roles && Owns(user, w.server) && Reaches(NextFault(w.faults)) {
      var o :| o in before && before[o] == user;
      assert o in after && after[o] == r;
    }
  }

  /** A principal still owns something after its own turn if neither statement did anything about it. */
  lemma OwnsAfterOwnDrop(user: string, w: World)
    requires user != "" && user in w.server.roles
    ensures Owns(user, Dropped(user, w).server) <==>
            && Owns(user, w.server) && !Reaches(SecondFault(w.faults))
            && (!Reaches(NextFault(w.faults)) || user == w.server.admin)
    ensures Owns(user, Dropped(user, w).server) ==> user in Dropped(user, w).server.roles
  {
    var before, after := w.server.objects, Dropped(user, w).server.objects;
    ObjectsAfterDrop(user, w);
    SentReassign(user, w);
    SentDropOwned(user, Sent(ReassignOwned(user), w));
    SentDropRole(user, Cleaned(user, w));
    if Owns(user, w.server) {
      var o :| o in before && before[o] == user;
      assert o in HandedOver(user, w);
    }
  }

  lemma RoleTurnLoses(role: string, user: string, w: World)
    requires user != "" && !Loses(user, w)
    ensures Loses(role, Dropped(user, w)) <==> TeardownLoses(role, user, w)
  {
    FaultsAfterDrop(user, w);
    AdminAfterDrop(user, w);
    RolesAfterDrop(user, w);
    if role == user {
      if user in w.server.roles {
        OwnsAfterOwnDrop(user, w);
      }
    } else {
      OwnsAfterDrop(user, w, role);
    }
  }

  /** Exactly when the whole teardown makes objects disappear. */
  lemma TeardownLosesExactly(role: string, user: string, w: World)
    ensures Dropped(role, Dropped(user, w)).server.objects.Keys == w.server.objects.Keys
            <==> !TeardownLoses(role, user, w)
  {
    ObjectsLostExactly(user, w);
    ObjectsLostExactly(role, Dropped(user, w));
    if user != "" && !Loses(user, w) {
      RoleTurnLoses(role, user, w);
    }
  }

  /**
   Conservation: if every REASSIGN takes effect then, whatever else fails, no object disappears, the
   objects of role and user end with the operator and all others keep their owner.
   */
  lemma ObjectsConserved(role: string, user: string, w: World)
    requires ReassignsReach(role, user, w) && w.server.admin !in {role, user}
    ensures var v, f := w.server, Dropped(role, Dropped(user, w)).server;
            && f.objects.Keys == v.objects.Keys
            && (forall o :: o in v.objects ==>
                  f.objects[o] == if v.objects[o] in {role, user} && v.objects[o] != "" && v.objects[o] in v.roles
                                  then v.admin else v.objects[o])
  {
    var mid := Dropped(user, w);
    AdminAfterDrop(user, w);
    if user != "" && user in w.server.roles {
      ObjectsHandedOver(user, w);
    } else {
      AbsentRoleIsNoOp(user, w);
    }
    RolesAfterDrop(user, w);
    if role != "" && role in mid.server.roles {
      ObjectsHandedOver(role, mid);
    } else {
      AbsentRoleIsNoOp(role, mid);
    }
  }

  lemma AdminAfterDrop(role: string, w: World)
    ensures Dropped(role, w).server.admin == w.server.admin
  {
    SentReassign(role, w);
    SentDropOwned(role, Sent(ReassignOwned(role), w));
    SentDropRole(role, Cleaned(role, w));
  }

  lemma RolesAfterDrop(role: string, w: World)
    ensures forall r :: r != role ==> (r in Dropped(role, w).server.roles <==> r in w.server.roles)
    ensures Dropped(role, w).server.roles.Keys <= w.server.roles.Keys
  {
    SentReassign(role, w);
    SentDropOwned(role, Sent(ReassignOwned(role), w));
    SentDropRole(role, Cleaned(role, w));
  }

  /** The hypothesis is needed: losing only the REASSIGN destroys an object of the app user. */
  lemma LostReassignDestroys()
    ensures exists role, user, w :: !ReassignsReach(role, user, w) && w.server.admin !in {role, user}
              && Dropped(role, Dropped(user, w)).server.objects.Keys != w.server.objects.Keys
  {
    var o := Obj("d", PUBLIC, Table, "t");
    var v := Server("root", true, {}, map["app" := true], {}, map[], map[], map[o := "app"], {}, {}, {});
    var w := World(v, [RequestLost]);
    assert v.objects[o] == "app" && "app" in v.objects.Values;
    assert Loses("app", w);
    ObjectsLostExactly("app", w);
    var mid := Dropped("app", w);
    assert mid.server.objects.Keys != v.objects.Keys;
    ObjectsLostExactly("", mid);
    assert Dropped("", mid) == mid;
  }

  /** No privilege, object or membership mentions the role. */
  predicate Forgotten(role: string, v: Server) {
    !Referenced(role, v) && forall m :: m in v.memberships ==> m.0 != role && m.1 != role
  }

  lemma CleanDrop(role: string, v: Server)
    requires role != "" && role in v.roles && role != v.admin
    ensures DropAnswered(role, World(v, []))
    ensures var x := Dropped(role, World(v, []));
            && x.faults == [] && x.server.roles == v.roles - {role} && x.server.admin == v.admin
            && Forgotten(role, x.server)
  {
    var c := Cleaned(role, World(v, [])).server;
    var r := Sent(ReassignOwned(role), World(v, [])).server;
    assert r == Effect(ReassignOwned(role), v);
    assert role !in r.databases.Values;
    assert c == Effect(DropOwned(role), r);
    assert !Referenced(role, c);
  }

  lemma CleanDropOfAbsent(role: string, v: Server)
    requires role == "" || role !in v.roles
    ensures DropAnswered(role, World(v, []))
    ensures var x := Dropped(role, World(v, []));
            x.faults == [] && x.server.roles == v.roles && x.server.admin == v.admin
    ensures forall r :: Forgotten(r, v) ==> Forgotten(r, Dropped(role, World(v, [])).server)
  {
    if role != "" {
      var w := World(v, []);
      assert Cleaned(role, w) == w;
      assert v.roles - {role} == v.roles;
    }
  }

  lemma ReassignBringsNoReference(role: string, v: Server, r: string)
    requires r != v.admin && Forgotten(r, v)
    ensures Forgotten(r, Effect(ReassignOwned(role), v))
  {}

  lemma DropsBringNoReference(role: string, v: Server, r: string)
    requires Forgotten(r, v)
    ensures Forgotten(r, Effect(DropOwned(role), v)) && Forgotten(r, Effect(DropRoleIfExists(role), v))
  {}

  /** Dropping another role brings no reference back. */
  lemma StaysForgotten(role: string, v: Server, r: string)
    requires role in v.roles && r != v.admin && Forgotten(r, v)
    ensures Forgotten(r, Dropped(role, World(v, [])).server)
  {
    var a := Effect(ReassignOwned(role), v);
    var b := Effect(DropOwned(role), a);
    assert Cleaned(role, World(v, [])) == World(b, []);
    ReassignBringsNoReference(role, v, r);
    DropsBringNoReference(role, a, r);
    DropsBringNoReference(role, b, r);
  }

  /** Without faults the teardown of role and user succeeds and leaves no trace of either. */
  lemma CleanTeardown(role: string, user: string, v: Server)
    requires v.admin !in {role, user}
    ensures var mid := Dropped(user, World(v, []));
            var end := Dropped(role, mid).server;
            && DropAnswered(user, World(v, [])) && DropAnswered(role, mid)
            && end.roles == v.roles - ({role, user} - {""})
            && (forall r :: r in {role, user} && r != "" && r in v.roles ==> Forgotten(r, end))
  {
    if user != "" && user in v.roles {
      CleanDrop(user, v);
    } else {
      CleanDropOfAbsent(user, v);
    }
    var mid := Dropped(user, World(v, [])).server;
    if role != "" && role in mid.roles {
      CleanDrop(role, mid);
      if user != "" && user in v.roles {
        StaysForgotten(role, mid, user);
      }
    } else {
      CleanDropOfAbsent(role, mid);
    }
  }
}
