/** The status condition list: an ordered list, changed in place, that stands for a map by type. */
module Conditions {
  import opened Text

  datatype Status = True | False | Unknown

  datatype Condition = Condition(kind: string, status: Status, reason: string, message: string,
                                 since: int, observedGeneration: int)

  /** One call on the list; `now` is what the clock shows. */
  datatype Op =
    | Set(kind: string, status: Status, reason: string, message: string, now: int)
    | Remove(kind: string)

  // ----- What one call does to the list ----------------------------------------------------------------

  predicate Says(c: Condition, op: Op)
    requires op.Set?
  {
    c.status == op.status && c.reason == op.reason && c.message == op.message
  }

  function Fresh(op: Op, generation: int): Condition
    requires op.Set?
  {
    Condition(op.kind, op.status, op.reason, op.message, op.now, generation)
  }

  function Renewed(c: Condition, op: Op): Condition
    requires op.Set?
  {
    if Says(c, op) then c else Fresh(op, c.observedGeneration)
  }

  /** The first entry of the type is renewed, or a new one goes to the end. */
  function SetIn(items: seq<Condition>, op: Op): seq<Condition>
    requires op.Set?
  {
    if items == [] then [Fresh(op, 0)]
    else if items[0].kind == op.kind then [Renewed(items[0], op)] + items[1..]
    else [items[0]] + SetIn(items[1..], op)
  }

  /** The entries whose type is not in `kinds`, in their order. */
  function Outside(items: seq<Condition>, kinds: set<string>): seq<Condition> {
    if items == [] then []
    else if items[0].kind in kinds then Outside(items[1..], kinds)
    else [items[0]] + Outside(items[1..], kinds)
  }

  function Do(items: seq<Condition>, op: Op): seq<Condition> {
    if op.Set? then SetIn(items, op) else Outside(items, {op.kind})
  }

  function Run(items: seq<Condition>, ops: seq<Op>): seq<Condition>
    decreases |ops|
  {
    if ops == [] then items else Run(Do(items, ops[0]), ops[1..])
  }

  // ----- The map behind it -----------------------------------------------------------------------------

  /** The entry a lookup finds for each type: the first. */
  function View(items: seq<Condition>): map<string, Condition> {
    if items == [] then map[] else View(items[1..])[items[0].kind := items[0]]
  }

  function MapDo(m: map<string, Condition>, op: Op): map<string, Condition> {
    if op.Remove? then m - {op.kind}
    else m[op.kind := if op.kind in m then Renewed(m[op.kind], op) else Fresh(op, 0)]
  }

  function MapRun(m: map<string, Condition>, ops: seq<Op>): map<string, Condition>
    decreases |ops|
  {
    if ops == [] then m else MapRun(MapDo(m, ops[0]), ops[1..])
  }

  predicate Unique(items: seq<Condition>) {
    forall i, j :: 0 <= i < j < |items| ==> items[i].kind != items[j].kind
  }

  // ----- One call --------------------------------------------------------------------------------------

  lemma {:induction false} ViewKinds(items: seq<Condition>)
    ensures forall c :: c in items ==> c.kind in View(items)
    ensures forall k :: k in View(items) ==> View(items)[k] in items && View(items)[k].kind == k
  {
    if items == [] {
    } else {
      ViewKinds(items[1..]);
    }
  }

  lemma {:induction false} SetView(items: seq<Condition>, op: Op)
    requires op.Set?
    ensures View(SetIn(items, op)) == MapDo(View(items), op)
  {
    if items != [] && items[0].kind != op.kind {
      SetView(items[1..], op);
    }
  }

  lemma {:induction false} RemoveView(items: seq<Condition>, kinds: set<string>)
    ensures View(Outside(items, kinds)) == View(items) - kinds
  {
    if items == [] {
    } else {
      RemoveView(items[1..], kinds);
    }
  }

  lemma DoView(items: seq<Condition>, op: Op)
    ensures View(Do(items, op)) == MapDo(View(items), op)
  {
    if op.Set? {
      SetView(items, op);
    } else {
      RemoveView(items, {op.kind});
    }
  }

  lemma {:induction false} OutsideMembers(items: seq<Condition>, kinds: set<string>)
    ensures forall c :: c in Outside(items, kinds) <==> c in items && c.kind !in kinds
  {
    if items == [] {
    } else {
      OutsideMembers(items[1..], kinds);
    }
  }

  lemma {:induction false} OutsideUnique(items: seq<Condition>, kinds: set<string>)
    requires Unique(items)
    ensures Unique(Outside(items, kinds))
  {
    if items == [] {
    } else {
      OutsideUnique(items[1..], kinds);
      OutsideMembers(items[1..], kinds);
      assert forall c :: c in items[1..] ==> c.kind != items[0].kind;
    }
  }

  lemma {:induction false} SetUnique(items: seq<Condition>, op: Op)
    requires op.Set? && Unique(items)
    ensures Unique(SetIn(items, op))
    ensures forall c :: c in SetIn(items, op) ==> c.kind == op.kind || c in items
  {
    if items != [] && items[0].kind != op.kind {
      SetUnique(items[1..], op);
      assert forall c :: c in items[1..] ==> c.kind != items[0].kind;
    }
  }

  lemma {:induction false} SetOutside(items: seq<Condition>, op: Op, kinds: set<string>)
    requires op.Set? && op.kind in kinds
    ensures Outside(SetIn(items, op), kinds) == Outside(items, kinds)
  {
    if items != [] && items[0].kind != op.kind {
      SetOutside(items[1..], op, kinds);
    }
  }

  lemma {:induction false} OutsideTwice(items: seq<Condition>, some: set<string>, kinds: set<string>)
    requires some <= kinds
    ensures Outside(Outside(items, some), kinds) == Outside(items, kinds)
  {
    if items == [] {
    } else {
      OutsideTwice(items[1..], some, kinds);
    }
  }

  // ----- Any sequence of calls -------------------------------------------------------------------------

  function Touched(ops: seq<Op>): set<string> {
    set op | op in ops :: op.kind
  }

  /** The list refines the map, over every run and from every list, repeated types or not. */
  lemma {:induction false} RunRefinesMap(items: seq<Condition>, ops: seq<Op>)
    ensures View(Run(items, ops)) == MapRun(View(items), ops)
    decreases |ops|
  {
    if ops == [] {
    } else {
      DoView(items, ops[0]);
      RunRefinesMap(Do(items, ops[0]), ops[1..]);
    }
  }

  lemma {:induction false} RunKeepsUnique(items: seq<Condition>, ops: seq<Op>)
    requires Unique(items)
    ensures Unique(Run(items, ops))
    decreases |ops|
  {
    if ops == [] {
    } else {
      if ops[0].Set? {
        SetUnique(items, ops[0]);
      } else {
        OutsideUnique(items, {ops[0].kind});
      }
      RunKeepsUnique(Do(items, ops[0]), ops[1..]);
    }
  }

  /** Entries of types no call names stay as they are, in their order. */
  lemma {:induction false} RunKeepsOthers(items: seq<Condition>, ops: seq<Op>, kinds: set<string>)
    requires Touched(ops) <= kinds
    ensures Outside(Run(items, ops), kinds) == Outside(items, kinds)
    decreases |ops|
  {
    if ops == [] {
    } else {
      var op := ops[0];
      assert op.kind in Touched(ops);
      assert Touched(ops[1..]) <= Touched(ops);
      if op.Set? {
        SetOutside(items, op, kinds);
      } else {
        OutsideTwice(items, {op.kind}, kinds);
      }
      RunKeepsOthers(Do(items, op), ops[1..], kinds);
    }
  }

  predicate Repeats(c: Condition, op: Op) {
    op.kind == c.kind ==> op.Set? && Says(c, op)
  }

  /** Setting an entry again and again to what it says leaves it untouched, transition time included. */
  lemma {:induction false} RepeatsKeepEntry(items: seq<Condition>, ops: seq<Op>, kind: string)
    requires kind in View(items) && forall op :: op in ops ==> Repeats(View(items)[kind], op)
    ensures kind in View(Run(items, ops)) && View(Run(items, ops))[kind] == View(items)[kind]
    decreases |ops|
  {
    if ops == [] {
    } else {
      ViewKinds(items);
      DoView(items, ops[0]);
      assert Repeats(View(items)[kind], ops[0]);
      RepeatsKeepEntry(Do(items, ops[0]), ops[1..], kind);
    }
  }

  /** The call that gave an entry its present time gave it its present words too. */
  predicate Explains(c: Condition, op: Op) {
    op.Set? && op.kind == c.kind && op.now == c.since && Says(c, op)
  }

  /**
   The history of an entry that is not removed: it stays, keeps its generation, and is either the
   entry it was from the start, or owes its time and its words to one and the same call.
   */
  lemma {:induction false} EntryHistory(items: seq<Condition>, ops: seq<Op>, kind: string)
    requires kind in View(items) && Remove(kind) !in ops
    ensures kind in View(Run(items, ops))
    ensures View(Run(items, ops))[kind].observedGeneration == View(items)[kind].observedGeneration
    ensures var c := View(Run(items, ops))[kind];
            c == View(items)[kind] || exists op :: op in ops && Explains(c, op)
    decreases |ops|
  {
    if ops == [] {
    } else {
      var next := Do(items, ops[0]);
      ViewKinds(items);
      DoView(items, ops[0]);
      assert ops[0] != Remove(kind) && kind in View(next);
      EntryHistory(next, ops[1..], kind);
      var c := View(Run(items, ops))[kind];
      if c == View(next)[kind] {
        if c != View(items)[kind] {
          assert ops[0] in ops && Explains(c, ops[0]);
        }
      } else {
        var op :| op in ops[1..] && Explains(c, op);
        assert op in ops && Explains(c, op);
      }
    }
  }

  // ----- The list itself -------------------------------------------------------------------------------

  ghost predicate Absent(items: seq<Condition>, kind: string, n: nat) {
    n <= |items| && forall j :: 0 <= j < n ==> items[j].kind != kind
  }

  lemma {:induction false} SetAt(items: seq<Condition>, op: Op, i: nat)
    requires op.Set? && i < |items| && Absent(items, op.kind, i) && items[i].kind == op.kind
    ensures SetIn(items, op) == items[i := Renewed(items[i], op)]
  {
    if i == 0 {
    } else {
      SetAt(items[1..], op, i - 1);
    }
  }

  lemma {:induction false} SetMissing(items: seq<Condition>, op: Op)
    requires op.Set? && Absent(items, op.kind, |items|)
    ensures SetIn(items, op) == items + [Fresh(op, 0)]
  {
    if items == [] {
    } else {
      SetMissing(items[1..], op);
    }
  }

  lemma {:induction false} FirstFound(items: seq<Condition>, kind: string, i: nat)
    requires Absent(items, kind, i)
    ensures i < |items| && items[i].kind == kind ==> kind in View(items) && View(items)[kind] == items[i]
    ensures i == |items| ==> kind !in View(items)
  {
    if i == 0 {
    } else {
      FirstFound(items[1..], kind, i - 1);
    }
  }

  lemma {:induction false} OutsideSnoc(items: seq<Condition>, c: Condition, kinds: set<string>)
    ensures Outside(items + [c], kinds) == Outside(items, kinds) + if c.kind in kinds then [] else [c]
  {
    if items == [] {
    } else {
      assert (items + [c])[1..] == items[1..] + [c];
      OutsideSnoc(items[1..], c, kinds);
    }
  }

  /** Entry `i` is the first of its type. */
  predicate FirstOf(items: seq<Condition>, kind: string, i: int) {
    0 <= i < |items| && items[i].kind == kind && forall j :: 0 <= j < i ==> items[j].kind != kind
  }

  /** The first entry of the type says what was set, since then or, if it said so before, since when it did. */
  ghost predicate NowSays(before: seq<Condition>, after: seq<Condition>, kind: string, status: Status, reason: string,
                          message: string, now: int) {
    exists i :: FirstOf(after, kind, i)
                && after[i].status == status && after[i].reason == reason && after[i].message == message
                && ((forall c :: c in before ==> c.kind != kind) ==>
                      && |after| == |before| + 1 && i == |before|
                      && after[i].since == now && after[i].observedGeneration == 0)
                && (forall j :: FirstOf(before, kind, j) ==>
                      && |after| == |before| && j == i && after[i].observedGeneration == before[i].observedGeneration
                      && after[i].since == (if before[i].status == status && before[i].reason == reason
                                               && before[i].message == message then before[i].since else now))
  }

  lemma SetSays(items: seq<Condition>, op: Op, i: nat)
    requires op.Set? && FirstOf(items, op.kind, i)
    ensures NowSays(items, SetIn(items, op), op.kind, op.status, op.reason, op.message, op.now)
  {
    SetAt(items, op, i);
    assert FirstOf(SetIn(items, op), op.kind, i);
  }

  lemma SetSaysNew(items: seq<Condition>, op: Op)
    requires op.Set? && Absent(items, op.kind, |items|)
    ensures NowSays(items, SetIn(items, op), op.kind, op.status, op.reason, op.message, op.now)
  {
    SetMissing(items, op);
    assert FirstOf(SetIn(items, op), op.kind, |items|);
  }

  /** What a lookup finds is the first entry of the type. */
  lemma {:induction false} ViewIsFirst(items: seq<Condition>, kind: string)
    ensures kind in View(items) ==> exists i :: FirstOf(items, kind, i) && View(items)[kind] == items[i]
    ensures kind !in View(items) ==> forall c :: c in items ==> c.kind != kind
  {
    if items == [] {
    } else if items[0].kind == kind {
      assert FirstOf(items, kind, 0);
    } else {
      ViewIsFirst(items[1..], kind);
      if kind in View(items) {
        var i :| FirstOf(items[1..], kind, i) && View(items[1..])[kind] == items[1..][i];
        assert FirstOf(items, kind, i + 1) && View(items)[kind] == items[i + 1];
      }
    }
  }

  /** The last call about a type decides: a Set gives the entry its words, a Remove leaves none. */
  lemma {:induction false} LastCallDecides(items: seq<Condition>, ops: seq<Op>, i: nat)
    requires i < |ops| && forall j :: i < j < |ops| ==> ops[j].kind != ops[i].kind
    ensures var m, op := View(Run(items, ops)), ops[i];
            && (op.Remove? ==> op.kind !in m)
            && (op.Set? ==> op.kind in m && m[op.kind].kind == op.kind && m[op.kind].status == op.status
                            && m[op.kind].reason == op.reason && m[op.kind].message == op.message)
    decreases |ops|
  {
    var op := ops[0];
    DoView(items, op);
    ViewKinds(Do(items, op));
    if i > 0 {
      LastCallDecides(Do(items, op), ops[1..], i - 1);
    } else {
      UntouchedStays(Do(items, op), ops[1..], op.kind);
    }
  }

  lemma {:induction false} UntouchedStays(items: seq<Condition>, ops: seq<Op>, kind: string)
    requires forall op :: op in ops ==> op.kind != kind
    ensures kind in View(Run(items, ops)) <==> kind in View(items)
    ensures kind in View(items) ==> View(Run(items, ops))[kind] == View(items)[kind]
    decreases |ops|
  {
    if ops == [] {
    } else {
      DoView(items, ops[0]);
      UntouchedStays(Do(items, ops[0]), ops[1..], kind);
    }
  }

  class ConditionList {
    var items: seq<Condition>

    constructor (items: seq<Condition>)
      ensures this.items == items
    {
      this.items := items;
    }

    method SetCondition(kind: string, status: Status, reason: string, message: string, now: int)
      modifies this
      ensures items == Do(old(items), Set(kind, status, reason, message, now))
      ensures View(items) == MapDo(View(old(items)), Set(kind, status, reason, message, now))
      ensures Unique(old(items)) ==> Unique(items)
      ensures NowSays(old(items), items, kind, status, reason, message, now)
    {
      ghost var op := Set(kind, status, reason, message, now);
      DoView(items, op);
      if Unique(items) {
        SetUnique(items, op);
      }
      for i := 0 to |items|
        invariant items == old(items) && Absent(items, kind, i)
      {
        var c := items[i];
        if c.kind == kind {
          SetAt(items, op, i);
          SetSays(items, op, i);
          if c.status != status || c.reason != reason || c.message != message {
            items := items[i := Condition(kind, status, reason, message, now, c.observedGeneration)];
          }
          return;
        }
      }
      SetMissing(items, op);
      SetSaysNew(items, op);
      items := items + [Condition(kind, status, reason, message, now, 0)];
    }

    method RemoveCondition(kind: string)
      modifies this
      ensures items == Do(old(items), Remove(kind))
      ensures View(items) == View(old(items)) - {kind}
      ensures Unique(old(items)) ==> Unique(items)
    {
      RemoveView(items, {kind});
      if Unique(items) {
        OutsideUnique(items, {kind});
      }
      var kept := [];
      for i := 0 to |items|
        invariant items == old(items) && kept == Outside(items[..i], {kind})
      {
        assert items[..i + 1] == items[..i] + [items[i]];
        OutsideSnoc(items[..i], items[i], {kind});
        if items[i].kind != kind {
          kept := kept + [items[i]];
        }
      }
      assert items[..|items|] == items;
      items := kept;
    }
  }

  /** A lookup finds what the map holds, and where. */
  method GetCondition(items: seq<Condition>, kind: string) returns (found: Option<nat>)
    ensures found.Some? <==> kind in View(items)
    ensures found.Some? ==> found.value < |items| && items[found.value] == View(items)[kind]
    ensures match found
            case Some(i) => FirstOf(items, kind, i)
            case None => forall c :: c in items ==> c.kind != kind
  {
    for i := 0 to |items|
      invariant Absent(items, kind, i)
    {
      if items[i].kind == kind {
        FirstFound(items, kind, i);
        return Some(i);
      }
    }
    FirstFound(items, kind, |items|);
    found := None;
  }

  method IsConditionTrue(items: seq<Condition>, kind: string) returns (r: bool)
    ensures r <==> kind in View(items) && View(items)[kind].status == True
  {
    var found := GetCondition(items, kind);
    r := found.Some? && items[found.value].status == True;
  }

  method IsConditionFalse(items: seq<Condition>, kind: string) returns (r: bool)
    ensures r <==> kind in View(items) && View(items)[kind].status == False
  {
    var found := GetCondition(items, kind);
    r := found.Some? && items[found.value].status == False;
  }
}
