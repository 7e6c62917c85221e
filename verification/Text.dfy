/** The string operations of the Go standard library that the operator relies on, over ASCII text. */
module Text {

  datatype Option<+T> = None | Some(value: T)

  function AsSet<T(==)>(xs: seq<T>): set<T> {
    set x | x in xs
  }

  predicate IsSpace(c: char) {
    c == ' ' || '\t' <= c <= '\r'
  }

  function UpperChar(c: char): char {
    if 'a' <= c <= 'z' then (c as int - 32) as char else c
  }

  function LowerChar(c: char): char {
    if 'A' <= c <= 'Z' then (c as int + 32) as char else c
  }

  function ToUpper(s: string): (r: string)
    ensures |r| == |s|
    ensures forall i :: 0 <= i < |s| ==> r[i] == UpperChar(s[i])
  {
    seq(|s|, i requires 0 <= i < |s| => UpperChar(s[i]))
  }

  function ToLower(s: string): (r: string)
    ensures |r| == |s|
    ensures forall i :: 0 <= i < |s| ==> r[i] == LowerChar(s[i])
  {
    seq(|s|, i requires 0 <= i < |s| => LowerChar(s[i]))
  }

  lemma ToLowerFixed(s: string)
    requires forall i :: 0 <= i < |s| ==> 'a' <= s[i] <= 'z'
    ensures ToLower(s) == s
  {}

  function TrimLeft(s: string): (r: string)
    ensures |r| <= |s|
  {
    if s != [] && IsSpace(s[0]) then TrimLeft(s[1..]) else s
  }

  function TrimRight(s: string): (r: string)
    ensures |r| <= |s|
  {
    if s != [] && IsSpace(s[|s| - 1]) then TrimRight(s[..|s| - 1]) else s
  }

  function TrimSpace(s: string): string {
    TrimRight(TrimLeft(s))
  }

  /** `strings.Contains`: `sub` occurs somewhere in `s`. */
  predicate Contains(s: string, sub: string) {
    exists i :: 0 <= i <= |s| && OccursAt(s, sub, i)
  }

  predicate OccursAt(s: string, sub: string, i: nat) {
    i + |sub| <= |s| && s[i..i + |sub|] == sub
  }

  /** `strings.Join`. */
  function Join(parts: seq<string>, sep: string): string {
    if parts == [] then ""
    else if |parts| == 1 then parts[0]
    else parts[0] + sep + Join(parts[1..], sep)
  }

  /** Membership in a fixed word list, searched from position `i` on. */
  predicate ListedFrom(word: string, list: seq<string>, i: nat)
    decreases |list| - i
  {
    i < |list| && (word == list[i] || ListedFrom(word, list, i + 1))
  }

  predicate Listed(word: string, list: seq<string>) {
    ListedFrom(word, list, 0)
  }

  lemma {:induction false} ListedIn(word: string, list: seq<string>, i: nat)
    requires ListedFrom(word, list, i)
    ensures word in list
    decreases |list| - i
  {
    if word != list[i] {
      ListedIn(word, list, i + 1);
    }
  }

  lemma {:induction false} ListedAt(list: seq<string>, i: nat, j: nat := 0)
    requires j <= i < |list|
    ensures ListedFrom(list[i], list, j)
    decreases i - j
  {
    if j == i {
    } else {
      ListedAt(list, i, j + 1);
    }
  }
}
