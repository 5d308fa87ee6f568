/** The schema initialiser (backend/init-database.js): how the schema
    script is cleaned of comments before it is sent, and which errors of
    the database are tolerated, with one retry that leaves out the
    `CREATE EXTENSION` statements. The database is the `query` parameter:
    the error message a script raises, or `None` when it runs. */
module InitDatabase {
  import opened Common
  import opened SqlComments
  import opened SqlExtensions

  // ---------------------------------------------------------------
  // Leaving out the extensions
  // ---------------------------------------------------------------

  /** A text in which no position starts a match is left as it is. */
  lemma {:induction false} NoExtensionUnchanged(s: string)
    requires forall i :: 0 <= i <= |s| ==> ExtensionMatch(s[i..]).None?
    ensures StripExtensions(s) == s
    decreases |s|
  {
    if s != [] {
      assert s[0..] == s;
      forall i | 0 <= i <= |s[1..]|
        ensures ExtensionMatch(s[1..][i..]).None?
      {
        assert s[1..][i..] == s[i + 1..];
      }
      NoExtensionUnchanged(s[1..]);
    }
  }

  /** `\s+` at the front of `t` takes exactly its first `n` characters. */
  lemma {:induction false} SpaceRunIs(t: string, n: nat)
    requires n <= |t|
    requires forall k :: 0 <= k < n ==> IsSpace(t[k])
    requires n < |t| ==> !IsSpace(t[n])
    ensures SpaceRun(t) == n
    decreases n
  {
    if n > 0 {
      assert forall k :: 0 <= k < n - 1 ==> t[1..][k] == t[k + 1];
      SpaceRunIs(t[1..], n - 1);
    }
  }

  /** The first `;` of `t` is the one at `j`. */
  lemma FirstSemicolonAt(t: string, j: nat)
    requires j < |t| && t[j] == ';' && ';' !in t[..j]
    ensures ';' in t && FirstIndex(t, ';') == j
  {
    assert t[j] in t;
    var k := FirstIndex(t, ';');
    assert forall i :: 0 <= i < j ==> t[..j][i] == t[i];
    assert forall i :: 0 <= i < k ==> t[..k][i] == t[i];
  }

  /** `s` starts with a `CREATE EXTENSION` statement, in any letter case,
      with `n` white-space characters between the two words, whose first
      `;` is at `m`. */
  predicate StatementAt(s: string, n: nat, m: nat)
  {
    && n > 0 && 6 + n + 9 <= m < |s|
    && CaseEq(s[..6], "CREATE")
    && (forall k :: 6 <= k < 6 + n ==> IsSpace(s[k]))
    && CaseEq(s[6 + n..6 + n + 9], "EXTENSION")
    && s[m] == ';' && ';' !in s[6 + n + 9..m]
  }

  /** Such a statement is matched exactly up to and including its `;`. */
  lemma MatchAt(s: string, n: nat, m: nat)
    requires StatementAt(s, n, m)
    ensures ExtensionMatch(s) == Some(m + 1)
  {
    var t := s[6..];
    assert Lower(s[6 + n..6 + n + 9][0]) == 'e';
    assert t[n] == s[6 + n..6 + n + 9][0];
    assert forall k :: 0 <= k < n ==> t[k] == s[6 + k];
    SpaceRunIs(t, n);
    var rest := s[6 + n..];
    assert rest[..9] == s[6 + n..6 + n + 9];
    var after := rest[9..];
    assert after[..m - (6 + n + 9)] == s[6 + n + 9..m];
    FirstSemicolonAt(after, m - (6 + n + 9));
  }

  /** Each `CREATE EXTENSION ...;` statement is removed whole, and the
      text after it is processed on its own. */
  lemma ExtensionRemoved(s: string, n: nat, m: nat)
    requires StatementAt(s, n, m)
    ensures StripExtensions(s) == StripExtensions(s[m + 1..])
  {
    MatchAt(s, n, m);
    StripAtMatch(s, m + 1);
  }

  /** Where a match ends at `k`, the replacement goes on after it. */
  lemma StripAtMatch(s: string, k: nat)
    requires ExtensionMatch(s) == Some(k)
    ensures StripExtensions(s) == StripExtensions(s[k..])
  {
  }

  // ---------------------------------------------------------------
  // Running the script
  // ---------------------------------------------------------------

  /** The errors the first run tolerates. */
  predicate Tolerated(msg: string)
  {
    Contains(msg, "already exists") || Contains(msg, "duplicate")
    || Contains(msg, "does not exist") || Contains(msg, "permission denied")
  }

  /** The errors the retry tolerates: a narrower set. */
  predicate RetryTolerated(msg: string)
  {
    Contains(msg, "already exists") || Contains(msg, "duplicate")
  }

  datatype SchemaRun =
    | Ran                       // the first run succeeded
    | RetryRan                  // the retry without extensions succeeded
    | Swallowed(error: string)  // an error was logged and ignored
    | Failed(error: string)     // an error was rethrown

  /** The scripts sent, in order, and how the run ended. */
  datatype Execution = Execution(queries: seq<string>, outcome: SchemaRun)

  /** Running the cleaned script: a tolerated error is logged and the run
      goes on; when its message also mentions `extension` the script is
      sent once more without its `CREATE EXTENSION` statements, and then
      only `already exists` and `duplicate` are tolerated. Any other error
      is rethrown. */
  function ExecuteSchema(cleanSql: string, query: string -> Option<string>): (r: Execution)
    ensures 1 <= |r.queries| <= 2 && r.queries[0] == cleanSql
    ensures |r.queries| == 2 <==>
      (query(cleanSql).Some? && Tolerated(query(cleanSql).value) && Contains(query(cleanSql).value, "extension"))
    ensures |r.queries| == 2 ==> r.queries[1] == StripExtensions(cleanSql)
    ensures r.outcome == Ran <==> query(cleanSql).None?
    ensures r.outcome == RetryRan <==> (|r.queries| == 2 && query(r.queries[1]).None?)
    ensures r.outcome.Failed? <==>
      (query(cleanSql).Some? &&
        (!Tolerated(query(cleanSql).value) ||
          (|r.queries| == 2 && query(r.queries[1]).Some? && !RetryTolerated(query(r.queries[1]).value))))
    ensures (r.outcome.Failed? || r.outcome.Swallowed?) ==> Some(r.outcome.error) == query(r.queries[|r.queries| - 1])
    ensures r.outcome.Swallowed? ==> Tolerated(r.outcome.error)
  {
    match query(cleanSql)
    case None => Execution([cleanSql], Ran)
    case Some(error) =>
      if !Tolerated(error) then Execution([cleanSql], Failed(error))
      else if !Contains(error, "extension") then Execution([cleanSql], Swallowed(error))
      else
        var retry := StripExtensions(cleanSql);
        match query(retry)
        case None => Execution([cleanSql, retry], RetryRan)
        case Some(retryError) =>
          if RetryTolerated(retryError) then Execution([cleanSql, retry], Swallowed(retryError))
          else Execution([cleanSql, retry], Failed(retryError))
  }

  /** A script without any `CREATE EXTENSION` statement is retried
      unchanged. */
  lemma RetrySameWithoutExtensions(cleanSql: string, query: string -> Option<string>)
    requires forall i :: 0 <= i <= |cleanSql| ==> ExtensionMatch(cleanSql[i..]).None?
    requires |ExecuteSchema(cleanSql, query).queries| == 2
    ensures ExecuteSchema(cleanSql, query).queries == [cleanSql, cleanSql]
    ensures ExecuteSchema(cleanSql, query).outcome.Failed? <==> !RetryTolerated(query(cleanSql).value)
  {
    NoExtensionUnchanged(cleanSql);
  }
}
