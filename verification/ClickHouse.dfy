/** ClickHouse GRANT statements: the printed form against the parser of SHOW GRANTS rows. */
module ClickHouse {
  import opened Text
  import opened Quoting
  import opened Privileges

  datatype GrantOptions = GrantOptions(privileges: seq<string>, level: string, database: string, table: string)

  datatype GrantInfo = GrantInfo(grantee: string, privileges: seq<string>, database: string,
                                 objectType: string, objectName: string)

  // ----- Splitting ------------------------------------------------------------------------------------------

  /** Position of the first occurrence of `sub` at or after `i`. */
  function Find(s: string, sub: string, i: nat): Option<nat>
    decreases |s| - i
  {
    if i + |sub| > |s| then None
    else if s[i..i + |sub|] == sub then Some(i)
    else if i == |s| then None
    else Find(s, sub, i + 1)
  }

  lemma {:induction false} FindFirst(s: string, sub: string, i: nat, k: nat)
    requires i <= k && OccursAt(s, sub, k) && forall j :: i <= j < k ==> !OccursAt(s, sub, j)
    ensures Find(s, sub, i) == Some(k)
    decreases k - i
  {
    if i == k {
    } else {
      assert !OccursAt(s, sub, i);
      FindFirst(s, sub, i + 1, k);
    }
  }

  lemma {:induction false} FindNone(s: string, sub: string, i: nat)
    requires forall j: nat :: i <= j ==> !OccursAt(s, sub, j)
    ensures Find(s, sub, i) == None
    decreases |s| - i
  {
    assert !OccursAt(s, sub, i);
    if i + |sub| <= |s| && i < |s| {
      FindNone(s, sub, i + 1);
    }
  }

  lemma {:induction false} FindBounds(s: string, sub: string, i: nat)
    ensures Find(s, sub, i).Some? ==> i <= Find(s, sub, i).value && Find(s, sub, i).value + |sub| <= |s|
    decreases |s| - i
  {
    if i + |sub| <= |s| && s[i..i + |sub|] != sub && i != |s| {
      FindBounds(s, sub, i + 1);
    }
  }

  /** strings.SplitN(s, sep, 2): one part if `sep` does not occur. */
  function SplitTwo(s: string, sep: string): seq<string>
    requires sep != []
  {
    match Find(s, sep, 0)
    case None => [s]
    case Some(k) => FindBounds(s, sep, 0); [s[..k], s[k + |sep|..]]
  }

  /** strings.Split. */
  function Split(s: string, sep: string): seq<string>
    requires sep != []
    decreases |s|
  {
    match Find(s, sep, 0)
    case None => [s]
    case Some(k) => FindBounds(s, sep, 0); [s[..k]] + Split(s[k + |sep|..], sep)
  }

  function TrimLeftChar(s: string, c: char): string {
    if s != [] && s[0] == c then TrimLeftChar(s[1..], c) else s
  }

  function TrimRightChar(s: string, c: char): string {
    if s != [] && s[|s| - 1] == c then TrimRightChar(s[..|s| - 1], c) else s
  }

  function TrimChar(s: string, c: char): string {
    TrimRightChar(TrimLeftChar(s, c), c)
  }

  // ----- Printing ---------------------------------------------------------------------------------------------

  function Escaped(name: string): string {
    EscapeIdentifier('`', name)
  }

  function Target(opt: GrantOptions): string {
    if opt.level == "global" then "*.*"
    else if opt.level == "database" then Escaped(opt.database) + ".*"
    else if opt.level == "table" then Escaped(opt.database) + "." + Escaped(opt.table)
    else if opt.table != "" && opt.database != "" then Escaped(opt.database) + "." + Escaped(opt.table)
    else if opt.database != "" then Escaped(opt.database) + ".*"
    else "*.*"
  }

  function NormalizeAll(privileges: seq<string>): (r: seq<string>)
    ensures |r| == |privileges| && forall i :: 0 <= i < |privileges| ==> r[i] == Normalize(privileges[i])
  {
    seq(|privileges|, i requires 0 <= i < |privileges| => Normalize(privileges[i]))
  }

  /** The statement sent for one option; an option with a privilege off the list is refused. */
  method GrantStatement(grantee: string, opt: GrantOptions) returns (r: Option<string>)
    ensures r.Some? <==> ValidPrivileges(opt.privileges, ClickHouseDialect)
    ensures r.Some? ==> r.value == Print(NormalizeAll(opt.privileges), Target(opt), grantee)
  {
    if !ValidPrivileges(opt.privileges, ClickHouseDialect) {
      return None;
    }
    var list := [];
    for j := 0 to |opt.privileges|
      invariant |list| == j
      invariant forall i :: 0 <= i < j ==> list[i] == Normalize(opt.privileges[i])
    {
      list := list + [Normalize(opt.privileges[j])];
    }
    assert list == NormalizeAll(opt.privileges);
    r := Some("GRANT " + Join(list, ", ") + " ON " + Target(opt) + " TO " + Escaped(grantee));
  }

  function Print(privileges: seq<string>, target: string, grantee: string): string {
    "GRANT " + Join(privileges, ", ") + " ON " + target + " TO " + Escaped(grantee)
  }

  // ----- Parsing ----------------------------------------------------------------------------------------------

  function TrimPrefix(s: string, prefix: string): string {
    if prefix <= s then s[|prefix|..] else s
  }

  function ParseObject(grantee: string, privileges: seq<string>, obj: string): GrantInfo {
    if '.' in obj then
      var parts := SplitTwo(obj, ".");
      var db := TrimChar(parts[0], '`');
      if |parts| > 1 then
        var name := TrimChar(parts[1], '`');
        if name != "*" then GrantInfo(grantee, privileges, db, "table", name)
        else GrantInfo(grantee, privileges, db, "database", db)
      else GrantInfo(grantee, privileges, db, "", "")
    else GrantInfo(grantee, privileges, "", "", "")
  }

  function Parse(row: string, grantee: string): Option<GrantInfo> {
    var parts := SplitTwo(TrimPrefix(row, "GRANT "), " ON ");
    if |parts| < 2 then None
    else Some(ParseObject(grantee, Split(parts[0], ", "), TrimSpace(SplitTwo(parts[1], " TO ")[0])))
  }

  // ----- Words that cannot be mistaken for ON -------------------------------------------------------------------

  /** No comma, no trailing space, and no O after a space; nor does the word begin with ON. */
  predicate Quiet(w: string) {
    && |w| >= 2 && !(w[0] == 'O' && w[1] == 'N')
    && w[|w| - 1] != ' ' && (forall i :: 0 <= i < |w| ==> w[i] != ',')
    && (forall i :: 0 <= i < |w| - 1 && w[i] == ' ' ==> w[i + 1] != 'O')
  }

  lemma ShortWordsQuiet(w: string)
    requires w in ["ALL", "SELECT", "INSERT", "ALTER", "CREATE", "DROP", "TRUNCATE", "SHOW", "OPTIMIZE", "SYSTEM"]
    ensures Quiet(w)
  {}

  lemma CreateWordsQuiet(w: string)
    requires w in ["CREATE DATABASE", "CREATE TABLE", "CREATE VIEW", "CREATE DICTIONARY", "CREATE TEMPORARY TABLE",
                   "CREATE FUNCTION"]
    ensures Quiet(w)
  {}

  lemma DropWordsQuiet(w: string)
    requires w in ["ALTER TABLE", "ALTER VIEW", "DROP DATABASE", "DROP TABLE", "DROP VIEW", "DROP DICTIONARY",
                   "DROP FUNCTION"]
    ensures Quiet(w)
  {}

  lemma ShowWordsQuiet(w: string)
    requires w in ["SHOW DATABASES", "SHOW TABLES", "SHOW DICTIONARIES", "SHOW COLUMNS", "KILL QUERY"]
    ensures Quiet(w)
  {}

  lemma AllowlistQuiet(w: string)
    requires w in Allowlist(ClickHouseDialect)
    ensures Quiet(w)
  {
    if w in ["ALL", "SELECT", "INSERT", "ALTER", "CREATE", "DROP", "TRUNCATE", "SHOW", "OPTIMIZE", "SYSTEM"] {
      ShortWordsQuiet(w);
    } else if w in ["CREATE DATABASE", "CREATE TABLE", "CREATE VIEW", "CREATE DICTIONARY", "CREATE TEMPORARY TABLE",
                    "CREATE FUNCTION"] {
      CreateWordsQuiet(w);
    } else if w in ["ALTER TABLE", "ALTER VIEW", "DROP DATABASE", "DROP TABLE", "DROP VIEW", "DROP DICTIONARY",
                    "DROP FUNCTION"] {
      DropWordsQuiet(w);
    } else {
      ShowWordsQuiet(w);
    }
  }

  predicate AllQuiet(ws: seq<string>) {
    ws != [] && forall i :: 0 <= i < |ws| ==> Quiet(ws[i])
  }

  /** A joined list of quiet words: no space is followed by ON, and it neither starts nor ends badly. */
  predicate QuietText(t: string) {
    && |t| >= 2 && !(t[0] == 'O' && t[1] == 'N')
    && t[|t| - 1] != ' '
    && forall i :: 0 <= i < |t| - 2 && t[i] == ' ' ==> !(t[i + 1] == 'O' && t[i + 2] == 'N')
  }

  lemma QuietJoinStep(w: string, rest: string)
    requires Quiet(w) && QuietText(rest)
    ensures QuietText(w + ", " + rest)
  {
    var t := w + ", " + rest;
    forall i | 0 <= i < |t| - 2 && t[i] == ' '
      ensures !(t[i + 1] == 'O' && t[i + 2] == 'N')
    {
      if i < |w| {
        assert w[i] == ' ';
        assert t[i + 1] == w[i + 1];
      } else if i == |w| + 1 {
        assert t[i + 1] == rest[0] && t[i + 2] == rest[1];
      } else {
        var k := i - |w| - 2;
        assert rest[k] == ' ';
        assert t[i + 1] == rest[k + 1] && t[i + 2] == rest[k + 2];
      }
    }
  }

  lemma {:induction false} QuietJoin(ws: seq<string>)
    requires AllQuiet(ws)
    ensures QuietText(Join(ws, ", "))
  {
    if |ws| == 1 {
      QuietIsQuietText(ws[0]);
    } else {
      assert AllQuiet(ws[1..]) by {
        forall i | 0 <= i < |ws[1..]| ensures Quiet(ws[1..][i]) {
          assert ws[1..][i] == ws[i + 1];
        }
      }
      QuietJoin(ws[1..]);
      QuietJoinStep(ws[0], Join(ws[1..], ", "));
    }
  }

  lemma QuietIsQuietText(w: string)
    requires Quiet(w)
    ensures QuietText(w)
  {}

  // ----- Splitting undoes printing --------------------------------------------------------------------------------

  /** One differing character rules out an occurrence. */
  lemma Differs(s: string, sub: string, j: nat, k: nat)
    requires k < |sub| && (j + k < |s| ==> s[j + k] != sub[k])
    ensures !OccursAt(s, sub, j)
  {
    if j + |sub| <= |s| {
      assert s[j..j + |sub|][k] == s[j + k];
    }
  }

  lemma NoOnWithin(t: string, rest: string, j: nat)
    requires QuietText(t) && j < |t|
    ensures !OccursAt(t + " ON " + rest, " ON ", j)
  {
    var s := t + " ON " + rest;
    if t[j] != ' ' {
      Differs(s, " ON ", j, 0);
    } else if t[j + 1] != 'O' {
      Differs(s, " ON ", j, 1);
    } else if j + 2 < |t| {
      Differs(s, " ON ", j, 2);
    } else {
      assert s[j + 2] == ' ';
      Differs(s, " ON ", j, 2);
    }
  }

  /** The first " ON " is the one the printer put behind the privileges. */
  lemma OnFoundBehind(t: string, rest: string)
    requires QuietText(t)
    ensures SplitTwo(t + " ON " + rest, " ON ") == [t, rest]
  {
    var s := t + " ON " + rest;
    forall j | 0 <= j < |t| ensures !OccursAt(s, " ON ", j) {
      NoOnWithin(t, rest, j);
    }
    assert s[|t|..|t| + 4] == " ON ";
    FindFirst(s, " ON ", 0, |t|);
    assert s[..|t|] == t && s[|t| + 4..] == rest;
  }

  // ----- Texts free of a separator --------------------------------------------------------------------------------

  /** `sub` occurs nowhere in `s`. */
  ghost predicate Free(s: string, sub: string) {
    forall j: nat :: !OccursAt(s, sub, j)
  }

  lemma FreeSlice(s: string, sub: string, i: nat, k: nat)
    requires Free(s, sub) && i <= k <= |s|
    ensures Free(s[i..k], sub)
  {
    forall j: nat ensures !OccursAt(s[i..k], sub, j) {
      assert !OccursAt(s, sub, i + j);
      if j + |sub| <= k - i {
        var x, y := s[i..k][j..j + |sub|], s[i + j..i + j + |sub|];
        assert forall m :: 0 <= m < |sub| ==> x[m] == s[i + j + m] && y[m] == s[i + j + m];
        assert x == y;
      }
    }
  }

  /** A character foreign to the separator keeps two free texts apart. */
  lemma FreeJoin(x: string, c: char, y: string, sub: string)
    requires Free(x, sub) && Free(y, sub) && c !in sub && sub != []
    ensures Free(x + [c] + y, sub)
  {
    var t := x + [c] + y;
    forall j: nat ensures !OccursAt(t, sub, j) {
      if j + |sub| <= |x| {
        assert !OccursAt(x, sub, j);
        assert t[j..j + |sub|] == x[j..j + |sub|];
      } else if j > |x| {
        var k := j - |x| - 1;
        assert !OccursAt(y, sub, k);
        if j + |sub| <= |t| {
          assert t[j..j + |sub|] == y[k..k + |sub|];
        }
      } else {
        Differs(t, sub, j, |x| - j);
      }
    }
  }

  lemma {:induction false} FindLeast(s: string, sub: string, i: nat)
    ensures forall j: nat :: i <= j && (Find(s, sub, i).Some? ==> j < Find(s, sub, i).value) ==> !OccursAt(s, sub, j)
    decreases |s| - i
  {
    if i + |sub| <= |s| && s[i..i + |sub|] != sub && i != |s| {
      FindLeast(s, sub, i + 1);
      assert !OccursAt(s, sub, i);
    }
  }

  /** What stands before the first separator holds none. */
  lemma FirstPartFree(s: string, sep: string)
    requires sep != []
    ensures Free(SplitTwo(s, sep)[0], sep)
  {
    FindLeast(s, sep, 0);
    FindBounds(s, sep, 0);
    var x := SplitTwo(s, sep)[0];
    forall j: nat ensures !OccursAt(x, sep, j) {
      assert (Find(s, sep, 0).Some? && j >= |x|) || !OccursAt(s, sep, j);
      if j + |sep| <= |x| {
        assert x[j..j + |sep|] == s[j..j + |sep|];
      }
    }
  }

  lemma PartsFree(s: string, sep: string, sub: string)
    requires sep != [] && Free(s, sub)
    ensures forall i :: 0 <= i < |SplitTwo(s, sep)| ==> Free(SplitTwo(s, sep)[i], sub)
  {
    FindBounds(s, sep, 0);
    match Find(s, sep, 0)
    case None =>
    case Some(k) =>
      FreeSlice(s, sub, 0, k);
      FreeSlice(s, sub, k + |sep|, |s|);
      assert s[0..k] == s[..k] && s[k + |sep|..|s|] == s[k + |sep|..];
  }

  lemma {:induction false} TrimLeftCharFree(s: string, c: char, sub: string)
    requires Free(s, sub)
    ensures Free(TrimLeftChar(s, c), sub)
  {
    if s != [] && s[0] == c {
      FreeSlice(s, sub, 1, |s|);
      assert s[1..|s|] == s[1..];
      TrimLeftCharFree(s[1..], c, sub);
    }
  }

  lemma {:induction false} TrimRightCharFree(s: string, c: char, sub: string)
    requires Free(s, sub)
    ensures Free(TrimRightChar(s, c), sub)
  {
    if s != [] && s[|s| - 1] == c {
      FreeSlice(s, sub, 0, |s| - 1);
      assert s[0..|s| - 1] == s[..|s| - 1];
      TrimRightCharFree(s[..|s| - 1], c, sub);
    }
  }

  lemma TrimCharFree(s: string, c: char, sub: string)
    requires Free(s, sub)
    ensures Free(TrimChar(s, c), sub)
  {
    TrimLeftCharFree(s, c, sub);
    TrimRightCharFree(TrimLeftChar(s, c), c, sub);
  }

  lemma {:induction false} TrimLeftFree(s: string, sub: string)
    requires Free(s, sub)
    ensures Free(TrimLeft(s), sub)
  {
    if s != [] && IsSpace(s[0]) {
      FreeSlice(s, sub, 1, |s|);
      assert s[1..|s|] == s[1..];
      TrimLeftFree(s[1..], sub);
    }
  }

  lemma {:induction false} TrimRightFree(s: string, sub: string)
    requires Free(s, sub)
    ensures Free(TrimRight(s), sub)
  {
    if s != [] && IsSpace(s[|s| - 1]) {
      FreeSlice(s, sub, 0, |s| - 1);
      assert s[0..|s| - 1] == s[..|s| - 1];
      TrimRightFree(s[..|s| - 1], sub);
    }
  }

  /** The first separator is the one behind a free text that does not end in its characters. */
  lemma CutBehind(t: string, sep: string, rest: string)
    requires sep != [] && t != [] && Free(t, sep) && t[|t| - 1] !in sep
    ensures SplitTwo(t + sep + rest, sep) == [t, rest]
  {
    var s := t + sep + rest;
    forall j | 0 <= j < |t| ensures !OccursAt(s, sep, j) {
      if j + |sep| <= |t| {
        assert !OccursAt(t, sep, j);
        assert s[j..j + |sep|] == t[j..j + |sep|];
      } else {
        Differs(s, sep, j, |t| - 1 - j);
      }
    }
    assert s[|t|..|t| + |sep|] == sep;
    FindFirst(s, sep, 0, |t|);
    assert s[..|t|] == t && s[|t| + |sep|..] == rest;
  }

  lemma DotFoundBehind(t: string, rest: string)
    requires forall i :: 0 <= i < |t| ==> t[i] != '.'
    ensures SplitTwo(t + "." + rest, ".") == [t, rest]
  {
    var s := t + "." + rest;
    forall j | 0 <= j < |t| ensures !OccursAt(s, ".", j) {
      Differs(s, ".", j, 0);
    }
    assert s[|t|..|t| + 1] == ".";
    FindFirst(s, ".", 0, |t|);
    assert s[..|t|] == t && s[|t| + 1..] == rest;
  }

  /** Splitting a joined list of quiet words gives the list back. */
  lemma {:induction false} SplitJoin(ws: seq<string>)
    requires AllQuiet(ws)
    ensures Split(Join(ws, ", "), ", ") == ws
  {
    var w := ws[0];
    assert Quiet(w);
    if |ws| == 1 {
      forall j: nat ensures !OccursAt(w, ", ", j) {
        Differs(w, ", ", j, 0);
      }
      FindNone(w, ", ", 0);
    } else {
      var rest := Join(ws[1..], ", ");
      var s := w + ", " + rest;
      forall j | 0 <= j < |w| ensures !OccursAt(s, ", ", j) {
        Differs(s, ", ", j, 0);
      }
      assert s[|w|..|w| + 2] == ", ";
      FindFirst(s, ", ", 0, |w|);
      assert s[..|w|] == w && s[|w| + 2..] == rest;
      forall i | 0 <= i < |ws[1..]| ensures Quiet(ws[1..][i]) {
        assert ws[1..][i] == ws[i + 1];
      }
      SplitJoin(ws[1..]);
      assert ws == [w] + ws[1..];
    }
  }

  // ----- Targets -----------------------------------------------------------------------------------------------------

  function Doubled(name: string): string {
    ReplaceChar(name, '`', "``")
  }

  /** Doubling backticks brings no separator about. */
  lemma {:induction false} DoubledFree(p: string, s: string, sub: string)
    requires Free(p + s, sub) && '`' !in sub && sub != []
    ensures Free(p + Doubled(s), sub)
    decreases |s|
  {
    if s == [] {
      assert Doubled(s) == [];
    } else if s[0] == '`' {
      var rest := Doubled(s[1..]);
      FreeSlice(p + s, sub, 0, |p|);
      FreeSlice(p + s, sub, |p| + 1, |p + s|);
      assert (p + s)[0..|p|] == p && (p + s)[|p| + 1..|p + s|] == [] + s[1..];
      DoubledFree([], s[1..], sub);
      assert [] + rest == rest;
      FreeJoin([], '`', rest, sub);
      FreeJoin(p, '`', [] + ['`'] + rest, sub);
      assert p + ['`'] + ([] + ['`'] + rest) == p + Doubled(s);
    } else {
      assert (p + [s[0]]) + s[1..] == p + s;
      DoubledFree(p + [s[0]], s[1..], sub);
      assert (p + [s[0]]) + Doubled(s[1..]) == p + Doubled(s);
    }
  }

  lemma EscapedFree(name: string, sub: string)
    requires Free(name, sub) && '`' !in sub && sub != []
    ensures Free(Escaped(name), sub)
  {
    assert [] + name == name;
    DoubledFree([], name, sub);
    assert [] + Doubled(name) == Doubled(name);
    FreeJoin([], '`', Doubled(name), sub);
    FreeJoin([] + ['`'] + Doubled(name), '`', [], sub);
    assert [] + ['`'] + Doubled(name) + ['`'] + [] == Escaped(name);
  }

  lemma {:induction false} DoubledAbsent(s: string)
    requires '`' !in s
    ensures Doubled(s) == s
  {
    if s == [] {
    } else {
      assert s[0] in s;
      assert forall x :: x in s[1..] ==> x in s;
      DoubledAbsent(s[1..]);
    }
  }

  lemma {:induction false} DoubledLonger(s: string)
    ensures |Doubled(s)| >= |s| && ('`' in s ==> |Doubled(s)| > |s|)
  {
    if s == [] {
    } else {
      DoubledLonger(s[1..]);
      assert s == [s[0]] + s[1..];
    }
  }

  lemma {:induction false} DoubledEnds(s: string)
    requires s != []
    ensures Doubled(s) != []
    ensures s[0] != '`' ==> Doubled(s)[0] == s[0]
    ensures s[|s| - 1] != '`' ==> Doubled(s)[|Doubled(s)| - 1] == s[|s| - 1]
  {
    if |s| > 1 {
      DoubledEnds(s[1..]);
    } else {
      assert Doubled(s[1..]) == [];
    }
  }

  /** Trimming takes exactly the outer backticks off a body that has none at its ends. */
  lemma TrimBackticks(body: string)
    requires body == [] || (body[0] != '`' && body[|body| - 1] != '`')
    ensures TrimChar("`" + body + "`", '`') == body
  {
    var s := "`" + body + "`";
    if body == [] {
      assert s == "``" && s[1..] == "`" && s[1..][1..] == "";
      assert TrimLeftChar(s, '`') == TrimLeftChar(s[1..], '`') == TrimLeftChar(s[1..][1..], '`');
    } else {
      var u := body + "`";
      assert s[1..] == u && u[0] == body[0];
      assert TrimLeftChar(s, '`') == TrimLeftChar(u, '`') == u;
      assert u[..|u| - 1] == body;
      assert TrimRightChar(u, '`') == TrimRightChar(body, '`') == body;
    }
  }

  lemma {:induction false} TrimLeftCharEnds(s: string, c: char)
    ensures TrimLeftChar(s, c) == [] || TrimLeftChar(s, c)[0] != c
  {
    if s != [] && s[0] == c {
      TrimLeftCharEnds(s[1..], c);
    }
  }

  lemma {:induction false} TrimRightCharEnds(s: string, c: char)
    ensures TrimRightChar(s, c) <= s
    ensures TrimRightChar(s, c) == [] || TrimRightChar(s, c)[|TrimRightChar(s, c)| - 1] != c
  {
    if s != [] && s[|s| - 1] == c {
      TrimRightCharEnds(s[..|s| - 1], c);
    }
  }

  /** Trimming recovers a quoted name exactly when the name holds no backtick. */
  lemma TrimEscaped(name: string)
    ensures TrimChar(Escaped(name), '`') == name <==> '`' !in name
  {
    var r := TrimChar(Escaped(name), '`');
    TrimLeftCharEnds(Escaped(name), '`');
    TrimRightCharEnds(TrimLeftChar(Escaped(name), '`'), '`');
    assert r == [] || (r[0] != '`' && r[|r| - 1] != '`');
    if '`' !in name {
      DoubledAbsent(name);
      TrimBackticks(name);
    } else if name[0] != '`' && name[|name| - 1] != '`' {
      DoubledEnds(name);
      TrimBackticks(Doubled(name));
      DoubledLonger(name);
    }
  }

  /** What a grant is about. */
  datatype Scope = Everything | WholeDatabase(db: string) | OneTable(db: string, table: string)

  function ScopeOf(opt: GrantOptions): Scope {
    if opt.level == "global" then Everything
    else if opt.level == "database" then WholeDatabase(opt.database)
    else if opt.level == "table" then OneTable(opt.database, opt.table)
    else if opt.database == "" then Everything
    else if opt.table == "" then WholeDatabase(opt.database)
    else OneTable(opt.database, opt.table)
  }

  /** No name of the scope holds what the parser splits on. */
  ghost predicate Legible(s: Scope) {
    match s
    case Everything => true
    case WholeDatabase(db) => Free(db, " TO ") && '.' !in db
    case OneTable(db, table) => Free(db, " TO ") && '.' !in db && Free(table, " TO ")
  }

  /** The scopes that survive printing and parsing. */
  ghost predicate Faithful(s: Scope) {
    Legible(s) && match s
      case Everything => true
      case WholeDatabase(db) => '`' !in db
      case OneTable(db, table) => '`' !in db && '`' !in table && table != "*"
  }

  function Described(grantee: string, privileges: seq<string>, s: Scope): GrantInfo {
    match s
    case Everything => GrantInfo(grantee, privileges, "*", "database", "*")
    case WholeDatabase(db) => GrantInfo(grantee, privileges, db, "database", db)
    case OneTable(db, table) => GrantInfo(grantee, privileges, db, "table", table)
  }

  function ScopeText(s: Scope): string {
    match s
    case Everything => "*.*"
    case WholeDatabase(db) => Escaped(db) + ".*"
    case OneTable(db, table) => Escaped(db) + "." + Escaped(table)
  }

  lemma TargetIsScopeText(opt: GrantOptions)
    ensures Target(opt) == ScopeText(ScopeOf(opt))
  {}

  lemma StarTrim()
    ensures TrimChar("*", '`') == "*"
  {
    assert TrimLeftChar("*", '`') == "*" && TrimRightChar("*", '`') == "*";
  }

  lemma StarFree()
    ensures Free("*", " TO ")
  {
    forall j: nat ensures !OccursAt("*", " TO ", j) {}
  }

  lemma EscapedHasNoDot(name: string)
    requires '.' !in name
    ensures '.' !in Escaped(name)
  {
    forall j: nat ensures !OccursAt(name, ".", j) {
      if j < |name| {
        Differs(name, ".", j, 0);
      }
    }
    EscapedFree(name, ".");
    FreeOfDot(Escaped(name));
  }

  lemma FreeOfDot(s: string)
    requires Free(s, ".")
    ensures '.' !in s
  {
    forall j | 0 <= j < |s| ensures s[j] != '.' {
      assert !OccursAt(s, ".", j);
      assert s[j..j + 1] == [s[j]];
    }
  }

  /** The text of a legible scope is left whole by the split at TO and by trimming. */
  lemma ScopeTextWhole(s: Scope, q: string)
    requires Legible(s)
    ensures TrimSpace(SplitTwo(ScopeText(s) + " TO " + q, " TO ")[0]) == ScopeText(s)
  {
    ScopeTextCut(s, q);
    TrimSpaceNone(ScopeText(s));
  }

  lemma ScopeTextCut(s: Scope, q: string)
    requires Legible(s)
    ensures SplitTwo(ScopeText(s) + " TO " + q, " TO ") == [ScopeText(s), q]
  {
    var t := ScopeText(s);
    StarFree();
    match s {
      case Everything =>
        FreeJoin("*", '.', "*", " TO ");
        assert "*" + ['.'] + "*" == t;
      case WholeDatabase(db) =>
        EscapedFree(db, " TO ");
        FreeJoin(Escaped(db), '.', "*", " TO ");
        assert Escaped(db) + ['.'] + "*" == t;
      case OneTable(db, table) =>
        EscapedFree(db, " TO ");
        EscapedFree(table, " TO ");
        FreeJoin(Escaped(db), '.', Escaped(table), " TO ");
        assert Escaped(db) + ['.'] + Escaped(table) == t;
    }
    CutBehind(t, " TO ", q);
  }

  lemma TrimSpaceNone(s: string)
    requires s != [] && !IsSpace(s[0]) && !IsSpace(s[|s| - 1])
    ensures TrimSpace(s) == s
  {}

  /** What the parser makes of the text of a scope, quoting and all. */
  lemma ParseText(grantee: string, privileges: seq<string>, s: Scope)
    requires s.Everything? || '.' !in s.db
    ensures var r := ParseObject(grantee, privileges, ScopeText(s));
            match s
            case Everything => r == Described(grantee, privileges, s)
            case WholeDatabase(db) =>
              var d := TrimChar(Escaped(db), '`'); r == GrantInfo(grantee, privileges, d, "database", d)
            case OneTable(db, table) =>
              var d, n := TrimChar(Escaped(db), '`'), TrimChar(Escaped(table), '`');
              r == if n == "*" then GrantInfo(grantee, privileges, d, "database", d)
                   else GrantInfo(grantee, privileges, d, "table", n)
  {
    StarTrim();
    match s
    case Everything =>
      DotFoundBehind("*", "*");
      assert "*" + "." + "*" == "*.*";
    case WholeDatabase(db) =>
      EscapedHasNoDot(db);
      DotFoundBehind(Escaped(db), "*");
      assert ScopeText(s) == Escaped(db) + "." + "*";
    case OneTable(db, table) =>
      EscapedHasNoDot(db);
      DotFoundBehind(Escaped(db), Escaped(table));
  }

  /** Whatever it parses, the parser never finds a dot in the database or TO in either name. */
  lemma ParsedFieldsFree(grantee: string, privileges: seq<string>, obj: string)
    requires Free(obj, " TO ")
    ensures var r := ParseObject(grantee, privileges, obj);
            Free(r.database, " TO ") && Free(r.objectName, " TO ") && '.' !in r.database
  {
    assert Free("", " TO ") by {
      forall j: nat ensures !OccursAt("", " TO ", j) {}
    }
    if '.' in obj {
      var parts := SplitTwo(obj, ".");
      PartsFree(obj, ".", " TO ");
      FirstPartFree(obj, ".");
      TrimCharFree(parts[0], '`', " TO ");
      TrimCharFree(parts[0], '`', ".");
      FreeOfDot(TrimChar(parts[0], '`'));
      if |parts| > 1 {
        TrimCharFree(parts[1], '`', " TO ");
      }
    }
  }

  /** The parser reads back the scope of a printed target exactly when the scope is faithful. */
  lemma ParseScopeExactly(grantee: string, privileges: seq<string>, s: Scope, q: string)
    ensures var obj := TrimSpace(SplitTwo(ScopeText(s) + " TO " + q, " TO ")[0]);
            ParseObject(grantee, privileges, obj) == Described(grantee, privileges, s) <==> Faithful(s)
  {
    if Legible(s) {
      ScopeTextWhole(s, q);
      ParseText(grantee, privileges, s);
      LegibleExactly(s);
    } else {
      var x := SplitTwo(ScopeText(s) + " TO " + q, " TO ")[0];
      FirstPartFree(ScopeText(s) + " TO " + q, " TO ");
      TrimLeftFree(x, " TO ");
      TrimRightFree(TrimLeft(x), " TO ");
      ParsedFieldsFree(grantee, privileges, TrimSpace(x));
    }
  }

  lemma LegibleExactly(s: Scope)
    requires Legible(s)
    ensures s.WholeDatabase? ==> (TrimChar(Escaped(s.db), '`') == s.db <==> Faithful(s))
    ensures s.OneTable? ==>
              var d, n := TrimChar(Escaped(s.db), '`'), TrimChar(Escaped(s.table), '`');
              (d == s.db && n == s.table && s.table != "*") <==> Faithful(s)
  {
    match s
    case Everything =>
    case WholeDatabase(db) => TrimEscaped(db);
    case OneTable(db, table) =>
      TrimEscaped(db);
      TrimEscaped(table);
  }

  /**
   Print then parse: for every option the adapter accepts and every grantee, parsing the printed
   statement gives back the normalized privileges in order and the scope, exactly when no name holds a
   backtick or TO between spaces, the database no dot, and the table is not a star.
   */
  lemma GrantRoundTrip(grantee: string, opt: GrantOptions)
    requires ValidPrivileges(opt.privileges, ClickHouseDialect)
    ensures var ws := NormalizeAll(opt.privileges);
            var parsed := Parse(Print(ws, Target(opt), grantee), grantee);
            parsed == Some(Described(grantee, ws, ScopeOf(opt))) <==> Faithful(ScopeOf(opt))
  {
    var ws := NormalizeAll(opt.privileges);
    forall i | 0 <= i < |ws| ensures Quiet(ws[i]) {
      assert Allowed(opt.privileges[i], ClickHouseDialect);
      ListedIn(ws[i], Allowlist(ClickHouseDialect), 0);
      AllowlistQuiet(ws[i]);
    }
    ParsePrinted(ws, Target(opt), grantee);
    TargetIsScopeText(opt);
    ParseScopeExactly(grantee, ws, ScopeOf(opt), Escaped(grantee));
  }

  lemma ParsePrinted(ws: seq<string>, t: string, grantee: string)
    requires AllQuiet(ws)
    ensures Parse(Print(ws, t, grantee), grantee)
            == Some(ParseObject(grantee, ws, TrimSpace(SplitTwo(t + " TO " + Escaped(grantee), " TO ")[0])))
  {
    var j, rest := Join(ws, ", "), t + " TO " + Escaped(grantee);
    var row := Print(ws, t, grantee);
    assert row == "GRANT " + (j + " ON " + rest);
    assert row[6..] == j + " ON " + rest;
    QuietJoin(ws);
    OnFoundBehind(j, rest);
    SplitJoin(ws);
  }

  /** Behind the TO of a printed statement stands the grantee, quoted: the lexer reads it back, whatever it is. */
  lemma GranteeReadBack(ws: seq<string>, s: Scope, grantee: string)
    requires AllQuiet(ws) && Legible(s)
    ensures var parts := SplitTwo(Print(ws, ScopeText(s), grantee), " ON ");
            && |parts| == 2 && |SplitTwo(parts[1], " TO ")| == 2
            && LexQuoted('`', false, SplitTwo(parts[1], " TO ")[1]) == Some(Token(grantee, ""))
  {
    var t, q := ScopeText(s), Escaped(grantee);
    var j, rest := "GRANT " + Join(ws, ", "), t + " TO " + q;
    assert Print(ws, t, grantee) == j + " ON " + rest;
    QuietJoin(ws);
    QuietWithPrefix(Join(ws, ", "));
    OnFoundBehind(j, rest);
    ScopeTextCut(s, q);
    assert q + "" == q;
    IdentifierRoundTrip('`', grantee, "");
  }

  lemma QuietWithPrefix(t: string)
    requires QuietText(t)
    ensures QuietText("GRANT " + t)
  {
    var x := "GRANT " + t;
    forall i | 0 <= i < |x| - 2 && x[i] == ' ' ensures !(x[i + 1] == 'O' && x[i + 2] == 'N') {
      if i == 5 {
        assert x[6] == t[0] && x[7] == t[1];
      } else {
        assert i > 5 && t[i - 6] == ' ';
        assert x[i + 1] == t[i - 5] && x[i + 2] == t[i - 4];
      }
    }
  }

  lemma EscapedPlainly(name: string)
    requires '`' !in name
    ensures Escaped(name) == "`" + name + "`"
  {
    DoubledAbsent(name);
  }

  /** The printed target to the letter, for names without backticks. */
  lemma TargetPlainly(opt: GrantOptions)
    requires '`' !in opt.database && '`' !in opt.table
    ensures opt.level == "table" ==> Target(opt) == "`" + opt.database + "`" + "." + ("`" + opt.table + "`")
    ensures opt.level == "database" ==> Target(opt) == "`" + opt.database + "`" + ".*"
    ensures opt.level == "global" ==> Target(opt) == "*.*"
    ensures opt.level !in {"table", "database", "global"} ==>
              Target(opt) == if opt.database == "" then "*.*"
                             else if opt.table == "" then "`" + opt.database + "`" + ".*"
                             else "`" + opt.database + "`" + "." + ("`" + opt.table + "`")
  {
    EscapedPlainly(opt.database);
    EscapedPlainly(opt.table);
  }

  /** The printed statement to the letter. */
  lemma PrintedPlainly(ws: seq<string>, target: string, grantee: string)
    requires '`' !in grantee
    ensures Print(ws, target, grantee)
         == "GRANT " + Join(ws, ", ") + " ON " + target + " TO " + ("`" + grantee + "`")
  {
    EscapedPlainly(grantee);
  }

  /**
   Faithful does not mean told apart: a grant on everything and one on a database named `*` print
   differently and are described alike.
   */
  lemma StarDatabaseLooksGlobal(grantee: string, privileges: seq<string>)
    ensures Described(grantee, privileges, Everything) == Described(grantee, privileges, WholeDatabase("*"))
    ensures Faithful(WholeDatabase("*")) && ScopeText(Everything) != ScopeText(WholeDatabase("*"))
  {
    StarFree();
    assert ScopeText(WholeDatabase("*"))[0] == '`' && ScopeText(Everything)[0] == '*';
  }

  /** Names of letters, digits and underscores always survive. */
  predicate WordChar(c: char) {
    'a' <= c <= 'z' || 'A' <= c <= 'Z' || '0' <= c <= '9' || c == '_'
  }

  lemma WordsAreFaithful(s: Scope)
    requires s.Everything? || forall c :: c in s.db ==> WordChar(c)
    requires s.OneTable? ==> forall c :: c in s.table ==> WordChar(c)
    ensures Faithful(s)
  {
    if !s.Everything? {
      WordsFree(s.db);
    }
    if s.OneTable? {
      WordsFree(s.table);
      assert "*"[0] == '*' && (s.table != [] ==> s.table[0] in s.table);
    }
  }

  lemma WordsFree(name: string)
    requires forall c :: c in name ==> WordChar(c)
    ensures Free(name, " TO ") && '.' !in name && '`' !in name
  {
    forall j: nat ensures !OccursAt(name, " TO ", j) {
      if j < |name| {
        assert name[j] in name;
        Differs(name, " TO ", j, 0);
      }
    }
  }

  /** A dot in the database name is enough to be misread. */
  lemma DottedNameMisread()
    ensures !Faithful(WholeDatabase("sales.eu")) && Faithful(OneTable("sales", "eu.orders"))
  {
    assert "sales.eu"[5] == '.';
    assert forall j: nat :: !OccursAt("sales", " TO ", j) by {
      forall j: nat ensures !OccursAt("sales", " TO ", j) {
        Differs("sales", " TO ", j, 0);
      }
    }
    forall j: nat ensures !OccursAt("eu.orders", " TO ", j) {
      Differs("eu.orders", " TO ", j, 0);
    }
  }
}
