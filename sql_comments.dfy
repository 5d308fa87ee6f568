/** The comment stripping of the schema initialiser
    (backend/init-database.js): `cleanSql`, the script as it is sent to
    the database, with block comments, line comments and surrounding white
    space removed. */
module SqlComments {
  import opened Common

  // The block-comment `replace` of the script, with its lazy pattern: from
  // left to right, each opening "/" "*" pair that is closed later is removed
  // together with everything up to the first closing "*" "/" pair; an
  // unclosed opener stays.
  function StripBlockComments(s: string): (r: string)
    ensures |r| <= |s|
    decreases |s|
  {
    if |s| < 2 then s
    else if StartsWith(s, "/*") then
      match IndexOf(s[2..], "*/")
      case Some(k) => StripBlockComments(s[k + 4..])
      case None => [s[0]] + StripBlockComments(s[1..])
    else [s[0]] + StripBlockComments(s[1..])
  }

  /** A text without an opener loses nothing. */
  lemma {:induction false} NoBlockCommentUnchanged(s: string)
    requires !Contains(s, "/*")
    ensures StripBlockComments(s) == s
    decreases |s|
  {
    if |s| >= 2 {
      NoBlockCommentUnchanged(s[1..]);
    }
  }

  /** In `body` followed by a closer, the first closer is that one when
      `body` holds none. */
  lemma FirstCloser(body: string, c: string)
    requires !Contains(body, "*/")
    ensures IndexOf(body + "*/" + c, "*/") == Some(|body|)
  {
    var t := body + "*/" + c;
    assert t[|body|..|body| + 2] == "*/";
    assert t[|body|..][..2] == "*/";
    assert OccursAt(t, "*/", |body|);
    ContainsMeans(t, "*/");
    var k := IndexOf(t, "*/").value;
    assert k <= |body|;
    assert t[|body|] == '*';
    assert t[k..k + 2][1] == t[k + 1];
    if k + 2 <= |body| {
      ContainsMeans(body, "*/");
      assert body[k..k + 2] == t[k..k + 2];
      assert OccursAt(body, "*/", k);
    }
  }

  /** A comment at the very start goes, through its first closer. */
  lemma CommentAtStart(body: string, c: string)
    requires !Contains(body, "*/")
    ensures StripBlockComments("/*" + (body + "*/" + c)) == StripBlockComments(c)
  {
    var t := body + "*/" + c;
    var s := "/*" + t;
    assert StartsWith(s, "/*") by { assert s[..2] == "/*"; }
    assert s[2..] == t;
    FirstCloser(body, c);
    ClosedAtStart(s, |body|);
    assert s[|body| + 4..] == c;
  }

  /** An opener at the start whose first closer is `k` characters after it
      removes the comment through that closer. */
  lemma ClosedAtStart(s: string, k: nat)
    requires StartsWith(s, "/*") && IndexOf(s[2..], "*/") == Some(k)
    ensures StripBlockComments(s) == StripBlockComments(s[k + 4..])
  {
  }

  /** Text before the first opener is kept as it is. */
  lemma {:induction false} PrefixKept(a: string, rest: string)
    requires !Contains(a, "/*") && StartsWith(rest, "/*")
    ensures StripBlockComments(a + rest) == a + StripBlockComments(rest)
    decreases |a|
  {
    if a == [] {
      assert a + rest == rest;
    } else {
      var x := a + rest;
      NotOpenerAhead(a, x);
      StripNonOpener(x);
      assert x[1..] == a[1..] + rest;
      if Contains(a[1..], "/*") {
        ContainsSlice(a, "/*", 1, |a|);
      }
      PrefixKept(a[1..], rest);
      ConsAssoc(a, StripBlockComments(rest));
    }
  }

  lemma ConsAssoc(a: string, t: string)
    requires a != []
    ensures [a[0]] + (a[1..] + t) == a + t
  {
  }

  lemma StripNonOpener(x: string)
    requires |x| >= 2 && !StartsWith(x, "/*")
    ensures StripBlockComments(x) == [x[0]] + StripBlockComments(x[1..])
  {
  }

  /** The first comment is removed through its first closer (the
      shortest match), and the text before it is kept. */
  lemma FirstCommentRemoved(a: string, body: string, c: string)
    requires !Contains(a, "/*") && !Contains(body, "*/")
    ensures StripBlockComments(a + "/*" + body + "*/" + c) == a + StripBlockComments(c)
  {
    var rest := "/*" + (body + "*/" + c);
    assert a + "/*" + body + "*/" + c == a + rest;
    PrefixKept(a, rest);
    CommentAtStart(body, c);
  }

  /** A non-empty prefix without an opener does not start one. */
  lemma NotOpenerAhead(a: string, s: string)
    requires a != [] && !Contains(a, "/*")
    requires |s| >= |a| + 2 && s[..|a|] == a && s[|a|] == '/'
    ensures !StartsWith(s, "/*")
  {
    if |a| >= 2 {
      assert a[..2] == s[..2];
      assert StartsWith(a, "/*") ==> Contains(a, "/*");
    } else {
      assert s[1] == '/';
    }
  }

  /** A line cut before its first `--`. */
  function TruncateLine(line: string): (r: string)
    ensures !Contains(r, "--")
    ensures StartsWith(line, r)
    ensures !Contains(line, "--") ==> r == line
  {
    match IndexOf(line, "--")
    case None => line
    case Some(k) =>
      BeforeFirstOccurrence(line, "--", k);
      line[..k]
  }

  /** Nothing before the first occurrence of `sub` contains it. */
  lemma BeforeFirstOccurrence(s: string, sub: string, k: nat)
    requires k <= |s| && |sub| > 0
    requires forall j :: 0 <= j < k ==> !StartsWith(s[j..], sub)
    ensures !Contains(s[..k], sub)
  {
    ContainsMeans(s[..k], sub);
    forall i | 0 <= i && i + |sub| <= k
      ensures !OccursAt(s[..k], sub, i)
    {
      assert s[..k][i..i + |sub|] == s[i..][..|sub|];
    }
  }

  /** `.map(line => ...)` over the lines. */
  function TruncateLines(lines: seq<string>): (r: seq<string>)
    ensures |r| == |lines|
    ensures forall k :: 0 <= k < |r| ==> r[k] == TruncateLine(lines[k])
  {
    if lines == [] then [] else [TruncateLine(lines[0])] + TruncateLines(lines[1..])
  }

  /** `cleanSql`, the whole pipeline: block comments out, each line cut at `--`, the
      lines joined again and the result trimmed. */
  function CleanSql(sql: string): string
  {
    Trim(Join(TruncateLines(Split(StripBlockComments(sql), '\n')), '\n'))
  }

  /** No two dashes side by side. */
  predicate NoDash(s: string)
  {
    forall i :: 0 <= i < |s| - 1 ==> !(s[i] == '-' && s[i + 1] == '-')
  }

  lemma DashMeans(s: string)
    ensures !Contains(s, "--") <==> NoDash(s)
  {
    ContainsMeans(s, "--");
    if !NoDash(s) {
      var i :| 0 <= i < |s| - 1 && s[i] == '-' && s[i + 1] == '-';
      assert s[i..i + 2] == "--";
      assert OccursAt(s, "--", i);
    }
    if Contains(s, "--") {
      var i :| OccursAt(s, "--", i);
      assert s[i] == s[i..i + 2][0] && s[i + 1] == s[i..i + 2][1];
    }
  }

  /** Joining lines none of which holds `--` cannot create one: the
      separator is not a dash. */
  lemma {:induction false} JoinNoDash(lines: seq<string>)
    requires |lines| >= 1
    requires forall k :: 0 <= k < |lines| ==> NoDash(lines[k])
    ensures NoDash(Join(lines, '\n'))
  {
    if |lines| > 1 {
      JoinNoDash(lines[1..]);
      var head, rest := lines[0], Join(lines[1..], '\n');
      assert Join(lines, '\n') == head + "\n" + rest;
      assert NoDash(head);
    }
  }

  /** Trimming only removes characters from the ends. */
  lemma TrimIsSlice(s: string)
    ensures exists i, j :: 0 <= i <= j <= |s| && Trim(s) == s[i..j]
  {
    var i, n := |s| - |TrimStart(s)|, |Trim(s)|;
    assert 0 <= i <= i + n <= |s| && Trim(s) == s[i..i + n] by {
      var t := TrimStart(s);
      assert t == s[i..];
      assert Trim(s) == TrimEnd(t) == t[..n];
    }
  }

  /** No line of the cleaned script contains `--`. */
  lemma CleanHasNoLineComment(sql: string)
    ensures !Contains(CleanSql(sql), "--")
  {
    var lines := TruncateLines(Split(StripBlockComments(sql), '\n'));
    var joined := Join(lines, '\n');
    forall k | 0 <= k < |lines|
      ensures NoDash(lines[k])
    {
      DashMeans(lines[k]);
    }
    JoinNoDash(lines);
    DashMeans(joined);
    TrimIsSlice(joined);
    var i, j :| 0 <= i <= j <= |joined| && Trim(joined) == joined[i..j];
    if Contains(joined[i..j], "--") {
      ContainsSlice(joined, "--", i, j);
    }
  }

  /** Lines of a text without `--` are left whole. */
  lemma {:induction false} SplitNoDash(s: string)
    requires !Contains(s, "--")
    ensures TruncateLines(Split(s, '\n')) == Split(s, '\n')
    decreases |s|
  {
    if '\n' in s {
      var k := FirstIndex(s, '\n');
      if Contains(s[..k], "--") {
        ContainsSlice(s, "--", 0, k);
      }
      assert s[k + 1..] == s[k + 1..|s|];
      if Contains(s[k + 1..], "--") {
        ContainsSlice(s, "--", k + 1, |s|);
      }
      SplitNoDash(s[k + 1..]);
    }
  }

  /** A script with neither a block-comment opener nor `--` is only
      trimmed. */
  lemma NoCommentsOnlyTrimmed(sql: string)
    requires !Contains(sql, "/*") && !Contains(sql, "--")
    ensures CleanSql(sql) == Trim(sql)
  {
    NoBlockCommentUnchanged(sql);
    SplitNoDash(sql);
    JoinSplit(sql, '\n');
  }
}
