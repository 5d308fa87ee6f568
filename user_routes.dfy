/** The user routes of the backend (backend/src/routes/user.js): login or
    registration by name, the per-user save throttle, the one-entry
    leaderboard cache, and the completion route.

    `Date.now()` is the `now` parameter; the outcome of each database query
    is an input, as in the `Database` module. Responses are values; the
    HTTP status codes are named in their constructors' comments. */
module UserRoutes {
  import opened Common
  import opened Database

  /** Milliseconds within which a second non-forced save is skipped. */
  const SaveThrottleMs: int := 2000
  /** Milliseconds a cached leaderboard stays fresh. */
  const CacheTtlMs: int := 5000
  /** The leaderboard size when the query gives none. */
  const DefaultLimit: int := 10

  /** `!x` on a string property of the request body. */
  predicate Missing(x: Option<string>)
  {
    x.None? || x.value == ""
  }

  datatype LoginResponse =
    | BadName                       // 400: missing or shorter than 2 code units after trimming
    | LoginFailed                   // 500: the user could not be created
    | LoggedIn(isNewUser: bool, id: string, username: string, avatarUrl: Option<string>, progress: Progress)

  /** `POST /login`. The name is trimmed and must keep at least two
      UTF-16 code units, as JavaScript's `length` counts them. An existing user comes back with its stored progress;
      otherwise a user is created under the trimmed name and comes back with
      the default progress. */
  method Login(db: Db, username: Option<string>, lookupOk: bool, progressOk: bool,
               freshId: string, userInsertOk: bool, progressInsertOk: bool)
    returns (resp: LoginResponse)
    requires db.FreshUserId(freshId)
    modifies db`users, db`progress
    ensures resp.BadName? <==> (username.None? || Utf16Length(Trim(username.value)) < 2)
    ensures resp.LoggedIn? ==> resp.username == Trim(username.value) && Utf16Length(resp.username) >= 2
    ensures resp.LoggedIn? && !resp.isNewUser ==>
      && old(db.UserByUsername(Trim(username.value), lookupOk)) == Some(UserRow(resp.id, resp.username, resp.avatarUrl))
      && resp.progress == db.ReadProgress(resp.id, progressOk)
      && db.users == old(db.users) && db.progress == old(db.progress)
    ensures resp.LoggedIn? && resp.isNewUser ==>
      && old(db.UserByUsername(Trim(username.value), lookupOk)).None?
      && resp.id == freshId && resp.avatarUrl == None && resp.progress == DefaultProgress()
      && db.users == old(db.users) + [UserRow(freshId, resp.username, None)]
      && db.progress == old(db.progress)[freshId := NewProgressRow]
    ensures resp.LoginFailed? ==>
      && old(db.UserByUsername(Trim(username.value), lookupOk)).None?
      && !(db.connected && userInsertOk && progressInsertOk)
      && db.users == (if db.connected && userInsertOk
                      then old(db.users) + [UserRow(freshId, Trim(username.value), None)] else old(db.users))
      && db.progress == old(db.progress)
    ensures resp.BadName? ==> db.users == old(db.users) && db.progress == old(db.progress)
  {
    if username.None? || Utf16Length(Trim(username.value)) < 2 {
      return BadName;
    }
    var name := Trim(username.value);
    var existing := db.UserByUsername(name, lookupOk);
    if existing.Some? {
      var u := existing.value;
      return LoggedIn(false, u.id, u.username, u.avatarUrl, db.ReadProgress(u.id, progressOk));
    }
    var created := db.CreateUser(name, freshId, userInsertOk, progressInsertOk);
    if created.Failure? {
      return LoginFailed;
    }
    resp := LoggedIn(true, created.value.id, created.value.username, None, Progress(0, [], DefaultPos, None, []));
  }

  datatype SaveResponse =
    | MissingParams                 // 400
    | Throttled                     // 200, "skipped frequent save"
    | SaveOk                        // 200
    | SaveFailed                    // 500: the write threw

  /** `saveThrottleMap.get(userId) || 0` */
  function LastSave(last: map<string, int>, userId: string): (t: int)
    ensures userId in last ==> t == last[userId]
    ensures userId !in last ==> t == 0
  {
    if userId in last then last[userId] else 0
  }

  /** A save is let through when forced or at least 2000 ms after the last
      accepted save of the same user. */
  predicate Accepts(last: map<string, int>, userId: string, force: bool, now: int)
  {
    force || now - LastSave(last, userId) >= SaveThrottleMs
  }

  /** Once a save of `u` is accepted at `t`, a non-forced save of `u` less
      than 2000 ms later is skipped, a forced one is not, and no other
      user's throttle changes. */
  lemma ThrottleWindow(last: map<string, int>, u: string, t: int, later: int, force: bool, v: string)
    requires v != u
    ensures !Accepts(last[u := t], u, false, later) <==> later - t < SaveThrottleMs
    ensures Accepts(last[u := t], u, true, later)
    ensures Accepts(last[u := t], v, force, later) == Accepts(last, v, force, later)
  {
  }

  /** The module-level `saveThrottleMap`. */
  class SaveThrottle {
    var last: map<string, int>

    constructor()
      ensures last == map[]
    {
      last := map[];
    }

    /** `POST /save`. Missing ids or data are rejected. A throttled save
        answers success and changes nothing. An accepted save records `now`
        for the user before writing, so the timestamp stays even when the
        write then fails; a disconnected database skips the write and
        still answers success. */
    method Save(db: Db, userId: Option<string>, data: Option<SaveData>, force: bool, now: int, queryOk: bool)
      returns (resp: SaveResponse)
      modifies this`last, db`progress
      ensures resp.MissingParams? <==> (Missing(userId) || data.None?)
      ensures resp.Throttled? <==> (!Missing(userId) && data.Some? && !Accepts(old(last), userId.value, force, now))
      ensures (resp.MissingParams? || resp.Throttled?) ==> last == old(last) && db.progress == old(db.progress)
      ensures (resp.SaveOk? || resp.SaveFailed?) ==> last == old(last)[userId.value := now]
      ensures resp.SaveFailed? <==> (!Missing(userId) && data.Some? && Accepts(old(last), userId.value, force, now)
                                     && db.connected && !queryOk)
      ensures resp.SaveOk? && db.connected ==> db.progress == old(db.progress)[userId.value :=
        SavedRow(if userId.value in old(db.progress) then Some(old(db.progress)[userId.value]) else None, data.value)]
      ensures !(resp.SaveOk? && db.connected) ==> db.progress == old(db.progress)
    {
      if Missing(userId) || data.None? {
        return MissingParams;
      }
      var id := userId.value;
      if !Accepts(last, id, force, now) {
        return Throttled;
      }
      last := last[id := now];
      var written := db.SaveUserProgress(id, data.value, queryOk);
      resp := if written == Threw then SaveFailed else SaveOk;
    }
  }

  /** `parseInt(req.query.limit) || 10`: `None` is NaN; NaN and 0 give 10. */
  function LimitOf(parsed: Option<int>): (n: int)
    ensures parsed.Some? && parsed.value != 0 ==> n == parsed.value
    ensures (parsed.None? || parsed.value == 0) ==> n == DefaultLimit
    ensures n != 0
  {
    if parsed.Some? && parsed.value != 0 then parsed.value else DefaultLimit
  }

  /** The module-level `leaderboardCache`. */
  class LeaderboardCache {
    var data: seq<LeaderRow>
    var timestamp: int
    var limit: int

    constructor()
      ensures data == [] && timestamp == 0 && limit == 0
    {
      data := [];
      timestamp := 0;
      limit := 0;
    }

    /** The cache answers: it holds a non-empty list for the same limit,
        fetched less than 5000 ms ago. */
    predicate Hit(n: int, now: int)
      reads this
    {
      |data| > 0 && limit == n && now - timestamp < CacheTtlMs
    }

    /** `GET /leaderboard/top`. A hit answers the cached list without
        touching the database; a miss queries it and replaces data,
        timestamp and limit, so an empty result is stored but never served
        later. */
    method Top(db: Db, parsed: Option<int>, now: int, queryOk: bool) returns (rows: seq<LeaderRow>)
      modifies this`data, this`timestamp, this`limit
      ensures old(Hit(LimitOf(parsed), now)) ==>
        rows == old(data) && |rows| > 0 && data == old(data) && timestamp == old(timestamp) && limit == old(limit)
      ensures !old(Hit(LimitOf(parsed), now)) ==>
        rows == db.Leaderboard(LimitOf(parsed), queryOk) && data == rows && timestamp == now && limit == LimitOf(parsed)
    {
      var n := LimitOf(parsed);
      if Hit(n, now) {
        return data;
      }
      rows := db.Leaderboard(n, queryOk);
      data := rows;
      timestamp := now;
      limit := n;
    }
  }

  /** Two requests for the same limit less than 5000 ms apart on a cold
      cache: when the first fetched a non-empty list, the second answers
      that same list without a query. */
  method RepeatWithinTtl(cache: LeaderboardCache, db: Db, parsed: Option<int>, t1: int, t2: int, queryOk: bool)
    returns (first: seq<LeaderRow>, second: seq<LeaderRow>)
    requires cache.data == [] && t2 - t1 < CacheTtlMs
    modifies cache
    ensures |first| > 0 ==> second == first
  {
    first := cache.Top(db, parsed, t1, queryOk);
    if |first| > 0 {
      assert cache.Hit(LimitOf(parsed), t2);
    }
    second := cache.Top(db, parsed, t2, queryOk);
  }

  datatype CompleteResponse =
    | MissingIds                    // 400
    | Recorded                      // 200

  /** `POST /complete-npc`: without a user or NPC id nothing happens;
      otherwise the attempt is always logged and the NPC is added to the
      user's completed list only on a pass. Database errors are swallowed
      by the service, so the answer is success. */
  method CompleteNpc(db: Db, userId: Option<string>, npcId: Option<string>, npcType: Option<string>,
                     content: Option<string>, feedback: Option<string>, passed: bool,
                     freshId: string, insertOk: bool, updateOk: bool)
    returns (resp: CompleteResponse)
    requires db.FreshTaskId(freshId)
    modifies db`completions, db`progress
    ensures resp.MissingIds? <==> (Missing(userId) || Missing(npcId))
    ensures resp.MissingIds? ==> db.completions == old(db.completions) && db.progress == old(db.progress)
    ensures resp.Recorded? && db.connected && insertOk ==>
      db.completions == old(db.completions) + [TaskRecord(freshId, userId.value, npcId.value, npcType, content, feedback, passed)]
    ensures resp.Recorded? && !(db.connected && insertOk) ==> db.completions == old(db.completions)
    ensures resp.Recorded? && passed && db.connected && updateOk && userId.value in old(db.progress) ==>
      db.progress == old(db.progress)[userId.value := old(db.progress)[userId.value].(
        completed := AppendCompleted(old(db.progress)[userId.value].completed, npcId.value))]
    ensures !(resp.Recorded? && passed && db.connected && updateOk && userId.value in old(db.progress)) ==>
      db.progress == old(db.progress)
  {
    if Missing(userId) || Missing(npcId) {
      return MissingIds;
    }
    db.SaveTaskCompletion(userId.value, npcId.value, npcType, content, feedback, passed, freshId, insertOk);
    if passed {
      db.AddCompletedNPC(userId.value, npcId.value, updateOk);
    }
    resp := Recorded;
  }
}
