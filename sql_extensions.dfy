/** The second pattern of the schema initialiser
    (backend/init-database.js): the case-insensitive removal of
    `CREATE EXTENSION` statements before its retry. */
module SqlExtensions {
  import opened Common

  /** ASCII lower case, as the `i` flag compares letters. */
  function Lower(c: char): char
  {
    if 'A' <= c <= 'Z' then (c as int + 32) as char else c
  }

  /** Equal up to the case of ASCII letters. */
  predicate CaseEq(a: string, b: string)
  {
    |a| == |b| && forall k :: 0 <= k < |a| ==> Lower(a[k]) == Lower(b[k])
  }

  /** The length of the white-space run `s` starts with (`\s+` is greedy
      and `EXTENSION` does not start with white space). */
  function SpaceRun(s: string): (n: nat)
    ensures n <= |s|
    ensures forall k :: 0 <= k < n ==> IsSpace(s[k])
    ensures n < |s| ==> !IsSpace(s[n])
  {
    if s != [] && IsSpace(s[0]) then 1 + SpaceRun(s[1..]) else 0
  }

  /** The length of a match of `/CREATE\s+EXTENSION[^;]*;/i` at the start
      of `s`, if there is one: it runs to the first `;` after the keyword. */
  function ExtensionMatch(s: string): (r: Option<nat>)
    ensures r.Some? ==> 0 < r.value <= |s| && s[r.value - 1] == ';'
  {
    if |s| < 6 || !CaseEq(s[..6], "CREATE") then None
    else
      var n := SpaceRun(s[6..]);
      var rest := s[6 + n..];
      if n == 0 || |rest| < 9 || !CaseEq(rest[..9], "EXTENSION") || ';' !in rest[9..] then None
      else Some(6 + n + 9 + FirstIndex(rest[9..], ';') + 1)
  }

  /** `.replace(/CREATE\s+EXTENSION[^;]*;/gi, '')`, left to right. */
  function StripExtensions(s: string): (r: string)
    ensures |r| <= |s|
    decreases |s|
  {
    if s == [] then []
    else
      match ExtensionMatch(s)
      case Some(n) => StripExtensions(s[n..])
      case None => [s[0]] + StripExtensions(s[1..])
  }
}
