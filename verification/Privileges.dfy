/** Privilege keywords: normal form and the allowlists of the statement builders. */
module Privileges {
  import opened Text

  datatype Dialect = PgDialect | ClickHouseDialect

  function PgPrivileges(): seq<string> {
    [ "SELECT", "INSERT", "UPDATE", "DELETE", "TRUNCATE", "REFERENCES", "TRIGGER", "CREATE",
      "CONNECT", "TEMPORARY", "TEMP", "EXECUTE", "USAGE", "ALL", "ALL PRIVILEGES" ]
  }

  function ClickHousePrivileges(): seq<string> {
    [ "ALL", "SELECT", "INSERT", "ALTER", "CREATE", "DROP", "TRUNCATE", "SHOW", "OPTIMIZE",
      "CREATE DATABASE", "CREATE TABLE", "CREATE VIEW", "CREATE DICTIONARY", "CREATE TEMPORARY TABLE",
      "CREATE FUNCTION", "ALTER TABLE", "ALTER VIEW", "DROP DATABASE", "DROP TABLE", "DROP VIEW",
      "DROP DICTIONARY", "DROP FUNCTION", "SHOW DATABASES", "SHOW TABLES", "SHOW DICTIONARIES",
      "SHOW COLUMNS", "KILL QUERY", "SYSTEM" ]
  }

  /** The privileges the statement builder of a dialect lets through. */
  function Allowlist(dialect: Dialect): seq<string> {
    match dialect
    case PgDialect => PgPrivileges()
    case ClickHouseDialect => ClickHousePrivileges()
  }

  function Normalize(privilege: string): string {
    ToUpper(TrimSpace(privilege))
  }

  predicate Allowed(privilege: string, dialect: Dialect) {
    Listed(Normalize(privilege), Allowlist(dialect))
  }

  /** The allowlist test every statement builder applies before it renders a statement. */
  predicate ValidPrivileges(privileges: seq<string>, dialect: Dialect) {
    privileges != [] && forall p :: p in privileges ==> Allowed(p, dialect)
  }

  /** Fifteen privileges pass for PostgreSQL: these on data ... */
  lemma PgDataPrivileges(w: string)
    requires w in {"SELECT", "INSERT", "UPDATE", "DELETE", "TRUNCATE", "REFERENCES", "TRIGGER"}
    ensures Listed(w, Allowlist(PgDialect)) && |Allowlist(PgDialect)| == 15
  {
    var list := Allowlist(PgDialect);
    forall i | 0 <= i < |list| ensures Listed(list[i], list) {
      ListedAt(list, i);
    }
    assert list[0] == "SELECT" && list[1] == "INSERT" && list[2] == "UPDATE" && list[3] == "DELETE";
    assert list[4] == "TRUNCATE" && list[5] == "REFERENCES" && list[6] == "TRIGGER";
  }

  /** ... and these others. */
  lemma PgOtherPrivileges(w: string)
    requires w in {"CREATE", "CONNECT", "TEMPORARY", "TEMP", "EXECUTE", "USAGE", "ALL", "ALL PRIVILEGES"}
    ensures Listed(w, Allowlist(PgDialect))
  {
    var list := Allowlist(PgDialect);
    forall i | 0 <= i < |list| ensures Listed(list[i], list) {
      ListedAt(list, i);
    }
    assert list[7] == "CREATE" && list[8] == "CONNECT" && list[9] == "TEMPORARY" && list[10] == "TEMP";
    assert list[11] == "EXECUTE" && list[12] == "USAGE" && list[13] == "ALL" && list[14] == "ALL PRIVILEGES";
  }

  /** Upper-case words are already in normal form. */
  lemma NormalizeUpper(p: string)
    requires forall i :: 0 <= i < |p| ==> 'A' <= p[i] <= 'Z'
    ensures Normalize(p) == p
  {
    assert TrimLeft(p) == p && TrimRight(p) == p;
    assert ToUpper(p) == p;
  }
}
