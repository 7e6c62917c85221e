/** Names of the owner role and the app user derived from a database name. */
module Derive {

  const MAX_IDENTIFIER := 63

  function Truncate(name: string): (r: string)
    ensures |r| <= MAX_IDENTIFIER
    ensures r <= name && (|name| <= MAX_IDENTIFIER ==> r == name)
  {
    if |name| > MAX_IDENTIFIER then name[..MAX_IDENTIFIER] else name
  }

  /** A configured name wins; "" means none is configured. */
  function RoleName(configured: string, db: string): string {
    if configured != "" then configured else Truncate("db_" + db + "_owner")
  }

  function UserName(configured: string, db: string): string {
    if configured != "" then configured else Truncate("db_" + db + "_app")
  }

  /** Truncation makes the two derived names collide exactly from 59 characters on. */
  lemma DerivedNamesDiffer(db: string)
    ensures RoleName("", db) != UserName("", db) <==> |db| <= 58
    ensures 0 < |RoleName("", db)| <= MAX_IDENTIFIER && 0 < |UserName("", db)| <= MAX_IDENTIFIER
  {
    var role, user := "db_" + db + "_owner", "db_" + db + "_app";
    var n := |db| + 3;
    if |db| <= 58 {
      assert role[n + 1] == 'o' && user[n + 1] == 'a';
      assert RoleName("", db)[n + 1] == 'o' && UserName("", db)[n + 1] == 'a';
    } else {
      assert role[..n] == user[..n] && role[n] == user[n] == '_';
      assert role[..n + 1] == user[..n + 1];
      assert role[..63] == role[..n + 1][..63] && user[..63] == user[..n + 1][..63];
    }
  }

  /** Up to 54 characters nothing is cut, so derivation is injective and roles never meet users. */
  lemma DerivedNamesInjective(db: string, db': string)
    requires |db| <= 54 && |db'| <= 54
    ensures RoleName("", db) == RoleName("", db') ==> db == db'
    ensures UserName("", db) == UserName("", db') ==> db == db'
    ensures RoleName("", db) != UserName("", db')
  {
    var r, r' := RoleName("", db), RoleName("", db');
    var u, u' := UserName("", db), UserName("", db');
    assert r[3..|r| - 6] == db && r'[3..|r'| - 6] == db';
    assert u[3..|u| - 4] == db && u'[3..|u'| - 4] == db';
    assert r[|r| - 1] == 'r' && u'[|u'| - 1] == 'p';
  }

  /** Beyond 60 characters two databases that share 60 characters share their owner role. */
  lemma DerivedNamesCollide(db: string, db': string)
    requires |db| >= 60 && |db'| >= 60
    ensures RoleName("", db) == RoleName("", db') <==> db[..60] == db'[..60]
  {
    var role, role' := "db_" + db + "_owner", "db_" + db' + "_owner";
    assert role[..63] == "db_" + db[..60] && role'[..63] == "db_" + db'[..60];
    assert role[..63][3..] == db[..60] && role'[..63][3..] == db'[..60];
  }
}
