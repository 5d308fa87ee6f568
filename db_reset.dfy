/** The reset tool (backend/db-reset.js): a full reset empties all three
    tables; a progress reset keeps every account and puts every player
    back at the start. Both run only after the tables were found non-empty
    and the operator confirmed. The operator's answer and the command-line
    switches are inputs. */
module DbReset {
  import opened Common
  import opened Database

  const ConfirmWord: string := "RESET"

  /** `confirmReset`: force mode confirms without asking; otherwise the
      typed answer must be `RESET` once surrounding white space is
      trimmed. */
  function ConfirmReset(force: bool, answer: string): (r: bool)
    ensures force ==> r
    ensures !force ==> (r <==> Trim(answer) == ConfirmWord)
  {
    force || Trim(answer) == ConfirmWord
  }

  /** Surrounding white space never spoils a confirmation. */
  lemma ConfirmIgnoresPadding(pre: string, post: string)
    requires forall k :: 0 <= k < |pre| ==> IsSpace(pre[k])
    requires forall k :: 0 <= k < |post| ==> IsSpace(post[k])
    ensures ConfirmReset(false, pre + ConfirmWord + post)
  {
    TrimPadded(pre, ConfirmWord, post);
  }

  /** The rows each reset reports: deleted or updated. */
  datatype ResetCounts = ResetCounts(tasks: nat, progress: nat, users: nat)

  /** A progress row after the progress reset: score 0, nothing collected,
      at the spawn point, back to the first level; the avatar stays. */
  function ResetRow(row: ProgressRow): (r: ProgressRow)
    ensures r.avatar == row.avatar && r.levelIndex == 0
    ensures RowToProgress(r) == DefaultProgress().(avatar := row.avatar)
  {
    row.(score := Some(0), inventory := Some([]), position := Some(DefaultPos), completed := Some([]), levelIndex := 0)
  }

  /** `fullReset()`: completions, then progress, then users are deleted,
      and each count of deleted rows is reported. */
  method FullReset(db: Db) returns (c: ResetCounts)
    modifies db`completions, db`progress, db`users
    ensures db.completions == [] && db.progress == map[] && db.users == []
    ensures c == ResetCounts(|old(db.completions)|, |old(db.progress)|, |old(db.users)|)
  {
    var tasks := |db.completions|;
    db.completions := [];
    var rows := |db.progress|;
    db.progress := map[];
    var users := |db.users|;
    db.users := [];
    c := ResetCounts(tasks, rows, users);
  }

  /** `progressReset()`: every completion is deleted and every progress
      row reset in place; the accounts stay, and no user is reported. */
  method ProgressReset(db: Db) returns (c: ResetCounts)
    modifies db`completions, db`progress
    ensures db.completions == []
    ensures db.progress.Keys == old(db.progress).Keys
    ensures forall u :: u in db.progress ==> db.progress[u] == ResetRow(old(db.progress)[u])
    ensures c == ResetCounts(|old(db.completions)|, |old(db.progress)|, 0)
  {
    var tasks := |db.completions|;
    db.completions := [];
    var rows := |db.progress|;
    db.progress := map u | u in db.progress :: ResetRow(db.progress[u]);
    c := ResetCounts(tasks, rows, 0);
  }

  /** After a progress reset every player reads back the starting progress
      with their own avatar. */
  lemma ProgressResetReadsDefault(before: map<string, ProgressRow>, after: map<string, ProgressRow>, u: string)
    requires after.Keys == before.Keys
    requires forall v :: v in after ==> after[v] == ResetRow(before[v])
    requires u in before
    ensures RowToProgress(after[u]) == DefaultProgress().(avatar := before[u].avatar)
  {
    assert after[u] == ResetRow(before[u]);
  }

  datatype RunOutcome =
    | NoCredentials               // exit 1 before connecting
    | ConnectionFailed            // exit 1
    | AlreadyEmpty                // nothing to reset
    | Cancelled                   // the operator did not confirm
    | Done(counts: ResetCounts)

  /** The three tables hold nothing: every count reads `'0'`. */
  predicate Empty(db: Db)
    reads db
  {
    |db.users| == 0 && |db.progress| == 0 && |db.completions| == 0
  }

  /** `main()`: without credentials or a connection it stops; on empty
      tables it stops without asking; an unconfirmed reset changes
      nothing; otherwise the chosen reset runs. */
  method Run(db: Db, credentials: bool, progressOnly: bool, force: bool, answer: string)
    returns (r: RunOutcome)
    modifies db`completions, db`progress, db`users
    ensures r == NoCredentials <==> !credentials
    ensures r == ConnectionFailed <==> credentials && !db.connected
    ensures r == AlreadyEmpty <==> credentials && db.connected && old(Empty(db))
    ensures r == Cancelled <==> credentials && db.connected && !old(Empty(db)) && !ConfirmReset(force, answer)
    ensures !r.Done? ==>
      db.users == old(db.users) && db.progress == old(db.progress) && db.completions == old(db.completions)
    ensures r.Done? && !progressOnly ==> db.users == [] && db.progress == map[] && db.completions == []
    ensures r.Done? && progressOnly ==>
      && db.users == old(db.users) && db.completions == []
      && db.progress.Keys == old(db.progress).Keys
      && forall u :: u in db.progress ==> db.progress[u] == ResetRow(old(db.progress)[u])
  {
    if !credentials {
      return NoCredentials;
    }
    if !db.connected {
      return ConnectionFailed;
    }
    if Empty(db) {
      return AlreadyEmpty;
    }
    if !ConfirmReset(force, answer) {
      return Cancelled;
    }
    var counts;
    if progressOnly {
      counts := ProgressReset(db);
    } else {
      counts := FullReset(db);
    }
    r := Done(counts);
  }
}
