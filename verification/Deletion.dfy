/** Confirmation of a forced delete: a digest of the sorted child names that changes when the children do. */
module Deletion {
  import opened Text

  // ----- Byte-wise order of names ------------------------------------------------------------------

  predicate Leq(x: string, y: string) {
    x == [] || (y != [] && (x[0] < y[0] || (x[0] == y[0] && Leq(x[1..], y[1..]))))
  }

  lemma LeqTotal(x: string, y: string)
    ensures Leq(x, y) || Leq(y, x)
  {}

  lemma {:induction false} LeqTransitive(x: string, y: string, z: string)
    requires Leq(x, y) && Leq(y, z)
    ensures Leq(x, z)
  {
    if x != [] && x[0] == y[0] && y[0] == z[0] {
      LeqTransitive(x[1..], y[1..], z[1..]);
    }
  }

  lemma {:induction false} LeqAntisymmetric(x: string, y: string)
    requires Leq(x, y) && Leq(y, x)
    ensures x == y
  {
    if x == [] {
    } else {
      LeqAntisymmetric(x[1..], y[1..]);
      assert x == [x[0]] + x[1..] && y == [y[0]] + y[1..];
    }
  }

  predicate Ordered(s: seq<string>) {
    forall i, j :: 0 <= i < j < |s| ==> Leq(s[i], s[j])
  }

  // ----- Sorting -----------------------------------------------------------------------------------

  function Insert(x: string, s: seq<string>): (r: seq<string>)
    requires Ordered(s)
    ensures Ordered(r) && multiset(r) == multiset{x} + multiset(s)
  {
    if s == [] then [x]
    else if Leq(x, s[0]) then
      assert forall j :: 0 <= j < |s| ==> Leq(x, s[j]) by {
        forall j | 0 < j < |s| ensures Leq(x, s[j]) { LeqTransitive(x, s[0], s[j]); }
      }
      [x] + s
    else
      var r := Insert(x, s[1..]);
      assert s == [s[0]] + s[1..];
      HeadBelow(x, s, r);
      [s[0]] + r
  }

  lemma HeadBelow(x: string, s: seq<string>, r: seq<string>)
    requires s != [] && Ordered(s) && !Leq(x, s[0]) && multiset(r) == multiset{x} + multiset(s[1..])
    ensures forall j :: 0 <= j < |r| ==> Leq(s[0], r[j])
  {
    LeqTotal(x, s[0]);
    forall j | 0 <= j < |r| ensures Leq(s[0], r[j]) {
      assert r[j] in multiset(r);
      if r[j] != x {
        assert r[j] in s[1..];
      }
    }
  }

  /** What `sort.Strings` leaves in its slice. */
  function Sort(s: seq<string>): (r: seq<string>)
    ensures Ordered(r) && multiset(r) == multiset(s)
  {
    if s == [] then [] else
      assert s == [s[0]] + s[1..];
      Insert(s[0], Sort(s[1..]))
  }

  lemma MultisetTail(s: seq<string>)
    requires s != []
    ensures multiset(s[1..]) == multiset(s) - multiset{s[0]}
  {
    assert s == [s[0]] + s[1..];
  }

  lemma SameHead(x: seq<string>, y: seq<string>)
    requires Ordered(x) && Ordered(y) && multiset(x) == multiset(y) && x != [] && y != []
    ensures x[0] == y[0]
  {
    assert x[0] in multiset(y) && y[0] in multiset(x);
    HeadLeast(x, y[0]);
    HeadLeast(y, x[0]);
    LeqAntisymmetric(x[0], y[0]);
  }

  /** A multiset has one ordered listing. */
  lemma {:induction false} OrderedUnique(x: seq<string>, y: seq<string>)
    requires Ordered(x) && Ordered(y) && multiset(x) == multiset(y)
    ensures x == y
  {
    assert |x| == |multiset(x)| == |multiset(y)| == |y|;
    if x == [] {
    } else {
      SameHead(x, y);
      MultisetTail(x);
      MultisetTail(y);
      OrderedUnique(x[1..], y[1..]);
      assert x == [x[0]] + x[1..] && y == [y[0]] + y[1..];
    }
  }

  lemma HeadLeast(s: seq<string>, e: string)
    requires Ordered(s) && e in s
    ensures Leq(s[0], e)
  {
    LeqTotal(e, e);
  }

  // ----- The preimage ------------------------------------------------------------------------------

  function Preimage(children: seq<string>): string {
    Join(Sort(children), "\n")
  }

  predicate OneLine(s: string) {
    '\n' !in s
  }

  ghost predicate OneLiners(names: seq<string>) {
    forall n :: n in names ==> OneLine(n)
  }

  /** The lines of a text; the empty text is one empty line. */
  function Lines(s: string): (r: seq<string>)
    ensures r != []
  {
    if s == [] then [""]
    else
      var rest := Lines(s[1..]);
      if s[0] == '\n' then [""] + rest else [[s[0]] + rest[0]] + rest[1..]
  }

  lemma {:induction false} LinesPrefix(line: string, s: string)
    requires OneLine(line)
    ensures Lines(line + s) == [line + Lines(s)[0]] + Lines(s)[1..]
  {
    if line == [] {
      assert line + s == s && line + Lines(s)[0] == Lines(s)[0];
    } else {
      assert (line + s)[1..] == line[1..] + s;
      LinesPrefix(line[1..], s);
      var tail := Lines(s);
      assert Lines(line[1..] + s) == [line[1..] + tail[0]] + tail[1..];
      assert [line[0]] + (line[1..] + tail[0]) == line + tail[0];
    }
  }

  /** A line, a break and a text. */
  lemma LinesCons(line: string, tail: string)
    requires OneLine(line)
    ensures Lines(line + "\n" + tail) == [line] + Lines(tail)
  {
    var t := "\n" + tail;
    assert line + "\n" + tail == line + t;
    assert t[0] == '\n' && t[1..] == tail;
    assert Lines(t) == [""] + Lines(tail);
    LinesPrefix(line, t);
    assert line + "" == line;
  }

  lemma LinesOne(line: string)
    requires OneLine(line)
    ensures Lines(line) == [line]
  {
    LinesPrefix(line, "");
    assert line + "" == line;
  }

  /** Splitting undoes joining, except that no names at all and one empty name look alike. */
  lemma {:induction false} LinesJoin(names: seq<string>)
    requires OneLiners(names)
    ensures Lines(Join(names, "\n")) == if names == [] then [""] else names
  {
    if |names| == 1 {
      LinesOne(names[0]);
    } else if names != [] {
      LinesJoin(names[1..]);
      LinesCons(names[0], Join(names[1..], "\n"));
      assert names == [names[0]] + names[1..];
    }
  }

  /** The only two lists of names that the joined text cannot tell apart. */
  predicate Blank(names: seq<string>) {
    names == [] || names == [""]
  }

  lemma JoinInjective(x: seq<string>, y: seq<string>)
    requires OneLiners(x) && OneLiners(y)
    ensures Join(x, "\n") == Join(y, "\n") <==> x == y || (Blank(x) && Blank(y))
  {
    LinesJoin(x);
    LinesJoin(y);
  }

  lemma SortKeepsNames(s: seq<string>)
    ensures forall n :: n in Sort(s) <==> n in s
    ensures Blank(Sort(s)) <==> Blank(s)
  {
    assert forall n :: n in Sort(s) <==> n in multiset(Sort(s));
    assert forall n :: n in s <==> n in multiset(s);
    assert |multiset(s)| == |s| && |multiset(Sort(s))| == |Sort(s)|;
  }

  /**
   Canonical form: for one-line names the preimages agree exactly when the lists agree up to order,
   the empty list and the list of one empty name aside.
   */
  lemma PreimageCanonical(a: seq<string>, b: seq<string>)
    requires OneLiners(a) && OneLiners(b)
    ensures Preimage(a) == Preimage(b) <==> multiset(a) == multiset(b) || (Blank(a) && Blank(b))
  {
    SortKeepsNames(a);
    SortKeepsNames(b);
    JoinInjective(Sort(a), Sort(b));
    if multiset(a) == multiset(b) {
      OrderedUnique(Sort(a), Sort(b));
    }
  }

  /** Reordering never matters, whatever the names hold. */
  lemma PreimageOrderFree(a: seq<string>, b: seq<string>)
    requires multiset(a) == multiset(b)
    ensures Preimage(a) == Preimage(b)
  {
    OrderedUnique(Sort(a), Sort(b));
  }

  lemma MultisetInsert(s: seq<string>, x: string, at: nat)
    requires at <= |s|
    ensures multiset(s[..at] + [x] + s[at..]) == multiset(s) + multiset{x}
  {
    assert s == s[..at] + s[at..];
  }

  /** The preimage changes when a named child is added anywhere, and so when one is removed. */
  lemma AdditionChanges(was: seq<string>, child: string, at: nat)
    requires OneLiners(was) && OneLine(child) && child != "" && at <= |was|
    ensures Preimage(was[..at] + [child] + was[at..]) != Preimage(was)
  {
    var now := was[..at] + [child] + was[at..];
    assert now[at] == child;
    assert OneLiners(now);
    MultisetInsert(was, child, at);
    assert multiset(now)[child] == multiset(was)[child] + 1;
    PreimageCanonical(now, was);
  }

  /** A name with a line break can stand for two names. */
  lemma LineBreakCollides()
    ensures Preimage(["a\nb"]) == Preimage(["a", "b"])
    ensures multiset(["a\nb"]) != multiset(["a", "b"])
  {
    assert Sort(["a\nb"]) == ["a\nb"];
    assert Leq("a", "b");
    OrderedUnique(Sort(["a", "b"]), ["a", "b"]);
    assert Join(["a", "b"], "\n") == "a" + "\n" + Join(["b"], "\n");
    assert "a" in multiset(["a", "b"]) && "a" !in multiset(["a\nb"]);
  }

  // ----- Confirmation --------------------------------------------------------------------------------

  const ANNOTATION := "dbops.dbprovision.io/confirm-force-delete"

  /** `sort.Strings`. */
  method SortStrings(a: array<string>)
    modifies a
    ensures a[..] == Sort(old(a[..]))
  {
    var s := Sort(a[..]);
    assert |multiset(s)| == |s| && |multiset(a[..])| == a.Length;
    forall i | 0 <= i < a.Length {
      a[i] := s[i];
    }
  }

  /** The digest is taken of a sorted copy; the caller's list is only read. */
  method ComputeDeletionHash(children: array<string>, digest: string -> string) returns (hash: string)
    ensures hash == digest(Preimage(children[..]))
  {
    var sorted := new string[children.Length](i requires 0 <= i < children.Length reads children => children[i]);
    assert sorted[..] == children[..];
    SortStrings(sorted);
    hash := digest(Join(sorted[..], "\n"));
  }

  function Annotation(annotations: map<string, string>): string {
    if ANNOTATION in annotations then annotations[ANNOTATION] else ""
  }

  method IsForceDeleteConfirmed(annotations: map<string, string>, children: array<string>, digest: string -> string)
    returns (confirmed: bool)
    ensures confirmed <==> Confirmed(annotations, children[..], digest)
    ensures confirmed <==>
            var key := "dbops.dbprovision.io/confirm-force-delete";
            digest(Preimage(children[..])) == if key in annotations then annotations[key] else ""
  {
    var hash := ComputeDeletionHash(children, digest);
    confirmed := Annotation(annotations) == hash;
  }

  predicate Confirmed(annotations: map<string, string>, children: seq<string>, digest: string -> string) {
    Annotation(annotations) == digest(Preimage(children))
  }

  /**
   A confirmation given for `was` is honoured for `now` exactly when the children are the same up to
   order; a digest that tells these two preimages apart is all this needs.
   */
  lemma ConfirmationExactly(annotations: map<string, string>, was: seq<string>, now: seq<string>,
                            digest: string -> string)
    requires Confirmed(annotations, was, digest) && OneLiners(was) && OneLiners(now)
    requires Preimage(was) != Preimage(now) ==> digest(Preimage(was)) != digest(Preimage(now))
    ensures Confirmed(annotations, now, digest) <==> multiset(was) == multiset(now) || (Blank(was) && Blank(now))
  {
    PreimageCanonical(was, now);
  }
}
