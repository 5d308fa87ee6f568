/** The persistence layer (backend/src/services/databaseService.js) over
    in-memory tables: `users` as a sequence of rows, `user_progress` as a map
    from user id to row, and `task_completions` as an append-only sequence.

    Whether the pool exists is the `connected` field. Whether a query
    succeeds is an input (`queryOk`): the database's own reasons for
    rejecting a statement (a constraint, a lost connection) are not part of
    this model. Fresh UUIDs are inputs too, required to be unused. */
module Database {
  import opened Common

  datatype Result<T> = Success(value: T) | Failure(error: string)

  /** A row of `users`. */
  datatype UserRow = UserRow(id: string, username: string, avatarUrl: Option<string>)

  /** A row of `user_progress`; nullable JSON columns are `Option`s.
      `level_index` is an integer column with default 0. */
  datatype ProgressRow = ProgressRow(
    score: Option<int>,
    inventory: Option<seq<string>>,
    position: Option<Pos>,
    avatar: Option<string>,
    completed: Option<seq<string>>,
    levelIndex: int)

  /** The progress object handed to the routes. */
  datatype Progress = Progress(
    score: int,
    inventory: seq<string>,
    position: Pos,
    avatar: Option<string>,
    completed: seq<string>)

  /** The `data` body of a save request; a property the client left out is
      `None`. */
  datatype SaveData = SaveData(
    score: Option<int>,
    inventory: Option<seq<string>>,
    position: Option<Pos>,
    avatar: Option<string>,
    completed: Option<seq<string>>)

  /** A row of `task_completions`. The route passes the body's properties
      through, so the optional ones may be missing. */
  datatype TaskRecord = TaskRecord(
    id: string,
    userId: string,
    npcId: string,
    taskType: Option<string>,
    content: Option<string>,
    feedback: Option<string>,
    passed: bool)

  /** What `saveUserProgress` does: skip when disconnected, write, or throw. */
  datatype WriteOutcome = Skipped | Written | Threw

  /** A leaderboard line: the user's name and score. */
  datatype LeaderRow = LeaderRow(name: string, score: int)

  const NotConnected: string := "数据库未连接"

  /** `getDefaultProgress()` */
  function DefaultProgress(): (p: Progress)
    ensures p.score == 0 && p.inventory == [] && p.position == DefaultPos
    ensures p.avatar == None && p.completed == []
  {
    Progress(0, [], DefaultPos, None, [])
  }

  /** The row `createUser` inserts next to a new user. */
  const NewProgressRow: ProgressRow := ProgressRow(Some(0), Some([]), Some(DefaultPos), None, Some([]), 0)

  /** The object `getUserProgress` builds from a stored row: every null
      column except `avatar` replaced by its default (`row.score || 0`
      also maps a stored 0 to 0). */
  function RowToProgress(row: ProgressRow): (p: Progress)
    ensures p.score == (if row.score.Some? then row.score.value else 0)
    ensures p.inventory == (if row.inventory.Some? then row.inventory.value else [])
    ensures p.position == (if row.position.Some? then row.position.value else DefaultPos)
    ensures p.completed == (if row.completed.Some? then row.completed.value else [])
    ensures p.avatar == row.avatar
  {
    Progress(
      if row.score.Some? then row.score.value else 0,
      if row.inventory.Some? then row.inventory.value else [],
      if row.position.Some? then row.position.value else DefaultPos,
      row.avatar,
      if row.completed.Some? then row.completed.value else [])
  }

  /** The row after `saveUserProgress`'s upsert: the five data columns take
      the body's values with `|| default` (`data.avatar || null` turns an
      empty avatar into null); `level_index` is never written, so it keeps
      the stored value, or the column default 0 on insert. */
  function SavedRow(prev: Option<ProgressRow>, data: SaveData): (row: ProgressRow)
    ensures row.score == Some(if data.score.Some? then data.score.value else 0)
    ensures row.inventory == Some(if data.inventory.Some? then data.inventory.value else [])
    ensures row.position == Some(if data.position.Some? then data.position.value else DefaultPos)
    ensures row.avatar == (if data.avatar == Some("") then None else data.avatar)
    ensures row.completed == Some(if data.completed.Some? then data.completed.value else [])
    ensures row.levelIndex == (if prev.Some? then prev.value.levelIndex else 0)
  {
    ProgressRow(
      Some(if data.score.Some? then data.score.value else 0),
      Some(if data.inventory.Some? then data.inventory.value else []),
      Some(if data.position.Some? then data.position.value else DefaultPos),
      if data.avatar == Some("") then None else data.avatar,
      Some(if data.completed.Some? then data.completed.value else []),
      if prev.Some? then prev.value.levelIndex else 0)
  }

  /** What is saved is what is read back: every field the client sent
      comes back as sent (an empty avatar as null), and a missing field
      comes back as its default, whatever the row held before. */
  lemma SaveReadBack(prev: Option<ProgressRow>, data: SaveData)
    ensures var p := RowToProgress(SavedRow(prev, data));
      && (data.score.Some? ==> p.score == data.score.value)
      && (data.position.Some? ==> p.position == data.position.value)
      && (data.inventory.Some? ==> p.inventory == data.inventory.value)
      && (data.completed.Some? ==> p.completed == data.completed.value)
      && (data.avatar.Some? && data.avatar.value != "" ==> p.avatar == data.avatar)
      && (data == SaveData(None, None, None, None, None) ==> p == DefaultProgress())
  {
  }

  /** The completed list after `addCompletedNPC`'s `CASE WHEN NOT
      (completed_npcs @> [id]) THEN completed_npcs || [id]`: the id is
      appended only when absent, and a null list stays null (`@>` on null
      is null, so the ELSE branch keeps it). */
  function AppendCompleted(c: Option<seq<string>>, id: string): (r: Option<seq<string>>)
    ensures c.None? ==> r.None?
    ensures c.Some? ==> r.Some? && id in r.value
    ensures c.Some? && id in c.value ==> r == c
    ensures c.Some? && id !in c.value ==> r == Some(c.value + [id])
  {
    match c
    case None => None
    case Some(l) => if id in l then c else Some(l + [id])
  }

  /** Adding a completed NPC twice is the same as adding it once, and it
      keeps the list free of duplicates. */
  lemma AppendCompletedIdempotent(c: Option<seq<string>>, id: string)
    ensures AppendCompleted(AppendCompleted(c, id), id) == AppendCompleted(c, id)
    ensures c.Some? && NoDup(c.value) ==> NoDup(AppendCompleted(c, id).value)
  {
    if c.Some? && NoDup(c.value) && id !in c.value {
      NoDupAppend(c.value, id);
    }
  }

  /** The first user with this name, as `result.rows[0]`. */
  function FindUser(users: seq<UserRow>, name: string): (r: Option<UserRow>)
    ensures r.None? <==> forall k :: 0 <= k < |users| ==> users[k].username != name
    ensures r.Some? ==> r.value.username == name && r.value in users
  {
    if users == [] then None
    else if users[0].username == name then Some(users[0])
    else FindUser(users[1..], name)
  }

  /** The rows of `user_progress JOIN users` with `score > 0`, one per
      user row, in `users` order (the query then orders them). */
  function Positive(users: seq<UserRow>, progress: map<string, ProgressRow>): (r: seq<LeaderRow>)
    ensures |r| <= |users|
    ensures forall k :: 0 <= k < |r| ==> r[k].score > 0
  {
    if users == [] then []
    else
      var u := users[0];
      var rest := Positive(users[1..], progress);
      if u.id in progress && progress[u.id].score.Some? && progress[u.id].score.value > 0
      then [LeaderRow(u.username, progress[u.id].score.value)] + rest
      else rest
  }

  /** A user's line is on the joined list iff the user has a progress row
      with a positive score. */
  lemma {:induction false} PositiveMembers(users: seq<UserRow>, progress: map<string, ProgressRow>, u: UserRow)
    requires u in users
    ensures u.id in progress && progress[u.id].score.Some? && progress[u.id].score.value > 0 ==>
      LeaderRow(u.username, progress[u.id].score.value) in Positive(users, progress)
  {
    if users[0] != u {
      PositiveMembers(users[1..], progress, u);
    }
  }

  predicate SortedDesc(s: seq<LeaderRow>)
  {
    forall i, j :: 0 <= i < j < |s| ==> s[i].score >= s[j].score
  }

  /** Insert `x` before the first line it does not score below. */
  function InsertDesc(x: LeaderRow, s: seq<LeaderRow>): (r: seq<LeaderRow>)
    requires SortedDesc(s)
    ensures SortedDesc(r)
    ensures multiset(r) == multiset(s) + multiset{x} && |r| == |s| + 1
    ensures r[0] == x || (|s| > 0 && r[0] == s[0])
  {
    if s == [] then [x]
    else if x.score >= s[0].score then
      ConsSorted(x, s);
      [x] + s
    else
      SortedTail(s);
      var t := InsertDesc(x, s[1..]);
      ConsSorted(s[0], t);
      assert s == [s[0]] + s[1..];
      assert multiset(s) == multiset{s[0]} + multiset(s[1..]);
      [s[0]] + t
  }

  lemma SortedTail(s: seq<LeaderRow>)
    requires SortedDesc(s) && |s| > 0
    ensures SortedDesc(s[1..]) && forall k :: 1 <= k < |s| ==> s[k].score <= s[0].score
  {
  }

  /** A line scoring at least the head of a sorted list keeps it sorted. */
  lemma ConsSorted(a: LeaderRow, t: seq<LeaderRow>)
    requires SortedDesc(t) && (|t| > 0 ==> t[0].score <= a.score)
    ensures SortedDesc([a] + t)
  {
    var r := [a] + t;
    forall i, j | 0 <= i < j < |r|
      ensures r[i].score >= r[j].score
    {
      assert r[j] == t[j - 1];
      if i > 0 {
        assert r[i] == t[i - 1];
      }
    }
  }

  /** `ORDER BY score DESC`: a non-increasing permutation of the lines. */
  function SortDesc(s: seq<LeaderRow>): (r: seq<LeaderRow>)
    ensures SortedDesc(r)
    ensures multiset(r) == multiset(s) && |r| == |s|
  {
    if s == [] then []
    else
      assert s == [s[0]] + s[1..];
      InsertDesc(s[0], SortDesc(s[1..]))
  }

  /** `LIMIT n` on a sorted list. */
  function Take(s: seq<LeaderRow>, n: nat): (r: seq<LeaderRow>)
    ensures |r| == (if n < |s| then n else |s|)
    ensures r == s[..|r|]
  {
    if n < |s| then s[..n] else s
  }

  /** The state of the three tables and of the connection. */
  class Db {
    var connected: bool
    var users: seq<UserRow>
    var progress: map<string, ProgressRow>
    var completions: seq<TaskRecord>

    constructor(connected: bool)
      ensures this.connected == connected
      ensures users == [] && progress == map[] && completions == []
    {
      this.connected := connected;
      users := [];
      progress := map[];
      completions := [];
    }

    /** The id is used by no user and no progress row. */
    predicate FreshUserId(id: string)
      reads this
    {
      (forall k :: 0 <= k < |users| ==> users[k].id != id) && id !in progress
    }

    /** The id is used by no completion record. */
    predicate FreshTaskId(id: string)
      reads this
    {
      forall k :: 0 <= k < |completions| ==> completions[k].id != id
    }

    /** `getUserByUsername(name)`: null when disconnected, when the query
        fails, or when no row has that name. */
    function UserByUsername(name: string, queryOk: bool): (r: Option<UserRow>)
      reads this
      ensures r.Some? ==> connected && queryOk && r.value in users && r.value.username == name
      ensures r.None? <==> (!connected || !queryOk || forall k :: 0 <= k < |users| ==> users[k].username != name)
    {
      if !connected || !queryOk then None else FindUser(users, name)
    }

    /** `createUser(name)`: throws when disconnected; otherwise inserts the
        user with a fresh id, then its progress row (score 0, empty lists,
        spawn position). A failing first insert changes nothing; a failing
        second insert leaves the user row without progress, and the error
        is rethrown either way. */
    method CreateUser(name: string, freshId: string, userInsertOk: bool, progressInsertOk: bool)
      returns (r: Result<UserRow>)
      requires FreshUserId(freshId)
      modifies this`users, this`progress
      ensures r.Success? <==> connected && userInsertOk && progressInsertOk
      ensures r.Success? ==> r.value == UserRow(freshId, name, None)
      ensures !connected ==> r == Failure(NotConnected)
      ensures users == if connected && userInsertOk then old(users) + [UserRow(freshId, name, None)] else old(users)
      ensures progress == if r.Success? then old(progress)[freshId := NewProgressRow] else old(progress)
    {
      if !connected {
        return Failure(NotConnected);
      }
      if !userInsertOk {
        return Failure("insert into users failed");
      }
      users := users + [UserRow(freshId, name, None)];
      if !progressInsertOk {
        return Failure("insert into user_progress failed");
      }
      progress := progress[freshId := NewProgressRow];
      r := Success(UserRow(freshId, name, None));
    }

    /** `getUserProgress(id)`: never null; the default snapshot when
        disconnected, when no row exists or when the query fails. */
    function ReadProgress(userId: string, queryOk: bool): (p: Progress)
      reads this
      ensures (!connected || !queryOk || userId !in progress) ==> p == DefaultProgress()
      ensures connected && queryOk && userId in progress ==> p == RowToProgress(progress[userId])
    {
      if !connected || !queryOk || userId !in progress then DefaultProgress()
      else RowToProgress(progress[userId])
    }

    /** `saveUserProgress(id, data)`: an upsert of the five data columns;
        nothing when disconnected; a failed write is rethrown and changes
        nothing. Only the user's own row changes. */
    method SaveUserProgress(userId: string, data: SaveData, queryOk: bool) returns (r: WriteOutcome)
      modifies this`progress
      ensures r == (if !connected then Skipped else if !queryOk then Threw else Written)
      ensures r == Written ==>
        progress == old(progress)[userId := SavedRow(if userId in old(progress) then Some(old(progress)[userId]) else None, data)]
      ensures r != Written ==> progress == old(progress)
    {
      if !connected {
        return Skipped;
      }
      if !queryOk {
        return Threw;
      }
      var prev := if userId in progress then Some(progress[userId]) else None;
      progress := progress[userId := SavedRow(prev, data)];
      r := Written;
    }

    /** `addCompletedNPC(id, npcId)`: appends the id to the user's list when
        absent; no row, a disconnected pool or a failed query change
        nothing, and errors are swallowed. */
    method AddCompletedNPC(userId: string, npcId: string, queryOk: bool)
      modifies this`progress
      ensures connected && queryOk && userId in old(progress) ==>
        progress == old(progress)[userId := old(progress)[userId].(completed := AppendCompleted(old(progress)[userId].completed, npcId))]
      ensures !(connected && queryOk && userId in old(progress)) ==> progress == old(progress)
      ensures connected && queryOk && userId in old(progress) && old(progress)[userId].completed.Some? ==>
        IsNPCCompleted(userId, npcId, true)
    {
      if connected && queryOk && userId in progress {
        var row := progress[userId];
        progress := progress[userId := row.(completed := AppendCompleted(row.completed, npcId))];
      }
    }

    /** `isNPCCompleted(id, npcId)`: the user's stored list contains the id;
        false when disconnected, on error, or with no row or a null list. */
    predicate IsNPCCompleted(userId: string, npcId: string, queryOk: bool)
      reads this
    {
      connected && queryOk && userId in progress && progress[userId].completed.Some?
      && npcId in progress[userId].completed.value
    }

    /** `saveTaskCompletion(record)`: appends one record under a fresh id
        and touches no existing record; nothing when disconnected or when
        the insert fails (the error is swallowed). */
    method SaveTaskCompletion(userId: string, npcId: string, taskType: Option<string>, content: Option<string>,
                              feedback: Option<string>, passed: bool, freshId: string, queryOk: bool)
      requires FreshTaskId(freshId)
      modifies this`completions
      ensures connected && queryOk ==>
        completions == old(completions) + [TaskRecord(freshId, userId, npcId, taskType, content, feedback, passed)]
      ensures !(connected && queryOk) ==> completions == old(completions)
    {
      if connected && queryOk {
        completions := completions + [TaskRecord(freshId, userId, npcId, taskType, content, feedback, passed)];
      }
    }

    /** `getLeaderboard(limit)`: the joined lines with a positive score,
        highest first, at most `limit` of them; [] when disconnected, when
        the query fails, or for a negative limit (which PostgreSQL
        rejects). */
    function Leaderboard(limit: int, queryOk: bool): (r: seq<LeaderRow>)
      reads this
      ensures (!connected || !queryOk || limit < 0) ==> r == []
      ensures |r| <= |users|
    {
      if !connected || !queryOk || limit < 0 then []
      else Take(SortDesc(Positive(users, progress)), limit)
    }
  }

  /** What a prefix of a sorted list leaves out scores no higher than
      anything in the prefix. */
  lemma PrefixIsTop(s: seq<LeaderRow>, j: nat)
    requires SortedDesc(s) && j <= |s|
    ensures forall x, k :: x in multiset(s) - multiset(s[..j]) && 0 <= k < j ==> x.score <= s[k].score
  {
    assert s == s[..j] + s[j..];
    forall x, k | x in multiset(s) - multiset(s[..j]) && 0 <= k < j
      ensures x.score <= s[k].score
    {
      assert x in multiset(s[j..]);
      var m :| 0 <= m < |s[j..]| && s[j..][m] == x;
      assert s[j + m] == x;
    }
  }

  /** A prefix is sorted when the list is, and holds part of its lines. */
  lemma PrefixSub(s: seq<LeaderRow>, j: nat)
    requires j <= |s|
    ensures multiset(s[..j]) <= multiset(s)
    ensures SortedDesc(s) ==> SortedDesc(s[..j])
  {
    assert s == s[..j] + s[j..];
  }

  /** The first `n` lines of a sorted permutation of `all` are its top
      `n`: drawn from `all`, and nothing left out scores above them. */
  lemma TopOfSorted(all: seq<LeaderRow>, n: nat)
    ensures var r := Take(SortDesc(all), n);
      && SortedDesc(r)
      && multiset(r) <= multiset(all)
      && (forall k :: 0 <= k < |r| ==> r[k] in all)
      && (forall x, k :: x in multiset(all) - multiset(r) && 0 <= k < |r| ==> x.score <= r[k].score)
  {
    var s := SortDesc(all);
    var r := Take(s, n);
    PrefixSub(s, |r|);
    forall k | 0 <= k < |r|
      ensures r[k] in all
    {
      assert r[k] in multiset(r);
    }
    PrefixIsTop(s, |r|);
  }

  /** The leaderboard is the top of the positive lines: sorted highest
      first, only positive scores, exactly `min(limit, lines)` long, drawn
      from the joined lines, and no line left out scores above a line
      shown. */
  lemma LeaderboardIsTop(db: Db, limit: int)
    requires db.connected && limit >= 0
    ensures var r := db.Leaderboard(limit, true);
      var all := Positive(db.users, db.progress);
      && SortedDesc(r)
      && (forall k :: 0 <= k < |r| ==> r[k].score > 0)
      && |r| == (if limit < |all| then limit else |all|)
      && multiset(r) <= multiset(all)
      && (forall x, k :: x in multiset(all) - multiset(r) && 0 <= k < |r| ==> x.score <= r[k].score)
  {
    TopOfSorted(Positive(db.users, db.progress), limit);
  }

  /** Every user with a positive score ends up on a leaderboard whose
      limit covers all users. */
  lemma EveryPositiveUserListed(db: Db, u: UserRow)
    requires db.connected && u in db.users
    requires u.id in db.progress && db.progress[u.id].score.Some? && db.progress[u.id].score.value > 0
    ensures LeaderRow(u.username, db.progress[u.id].score.value) in db.Leaderboard(|db.users|, true)
  {
    var all := Positive(db.users, db.progress);
    PositiveMembers(db.users, db.progress, u);
    var x := LeaderRow(u.username, db.progress[u.id].score.value);
    assert x in multiset(all);
    assert x in multiset(SortDesc(all));
  }
}
