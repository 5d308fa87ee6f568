/** The player panel (frontend/src/components/PlayerPanel.jsx): the
    overall progress figures it shows and the guard in front of an avatar
    upload. The upload request is an input: the url it answers, or `None`
    when it throws. */
module PlayerPanel {
  import opened Common
  import opened Levels
  import opened GameStore

  /** `LEVELS.reduce((sum, level) => sum + getRequiredNPCIds(level).length, 0)`,
      folded from the left as `reduce` does. */
  function TotalNPCs(levels: seq<Level>): (t: nat)
  {
    if levels == [] then 0
    else TotalNPCs(levels[..|levels| - 1]) + |RequiredNPCIds(Some(levels[|levels| - 1]))|
  }

  /** The non-assistant NPCs of one level, counted directly. */
  function TasksOf(level: Level): nat
  {
    if level.npcs.None? then 0 else CountTasks(level.npcs.value)
  }

  /** The same total summed from the front, one level's tasks at a time. */
  function TaskTotal(levels: seq<Level>): nat
  {
    if levels == [] then 0 else TasksOf(levels[0]) + TaskTotal(levels[1..])
  }

  lemma {:induction false} TaskTotalAppend(a: seq<Level>, b: seq<Level>)
    ensures TaskTotal(a + b) == TaskTotal(a) + TaskTotal(b)
  {
    if a == [] {
      assert a + b == b;
    } else {
      assert (a + b)[1..] == a[1..] + b;
      TaskTotalAppend(a[1..], b);
    }
  }

  /** The total the panel divides by is the number of non-assistant NPCs
      over all levels. */
  lemma {:induction false} TotalCountsTasks(levels: seq<Level>)
    ensures TotalNPCs(levels) == TaskTotal(levels)
  {
    if levels != [] {
      var init, last := levels[..|levels| - 1], levels[|levels| - 1];
      TotalCountsTasks(init);
      assert levels == init + [last];
      TaskTotalAppend(init, [last]);
      assert TaskTotal([last]) == TasksOf(last) by {
        assert [last][1..] == [];
      }
      if last.npcs.Some? {
        RequiredOfLength(last.npcs.value);
      }
    }
  }

  /** Adding a level adds exactly its own required NPCs to the total. */
  lemma {:induction false} TotalAdditive(a: seq<Level>, b: seq<Level>)
    ensures TotalNPCs(a + b) == TotalNPCs(a) + TotalNPCs(b)
  {
    TotalCountsTasks(a);
    TotalCountsTasks(b);
    TotalCountsTasks(a + b);
    TaskTotalAppend(a, b);
  }

  /** `player.completedNPCs?.length || 0` */
  function CompletedCount(completed: Option<seq<string>>): (c: nat)
    ensures completed.None? ==> c == 0
    ensures completed.Some? ==> c == |completed.value|
  {
    if completed.Some? then |completed.value| else 0
  }

  /** `totalNPCs > 0 ? Math.round(completedCount / totalNPCs * 100) : 0`
      in exact arithmetic: `Math.round` rounds halves up, so the result is
      the integer nearest to `100 * completed / total`, a half rounding up.
      A zero total gives 0 and is never divided by. */
  function TotalPercent(completed: nat, total: nat): (p: nat)
    ensures total == 0 ==> p == 0
    ensures total > 0 ==> p * (2 * total) <= 200 * completed + total < (p + 1) * (2 * total)
  {
    if total > 0 then (200 * completed + total) / (2 * total) else 0
  }

  lemma MulMono(a: int, b: int, k: nat)
    requires a <= b
    ensures a * k <= b * k
  {
    assert b * k - a * k == (b - a) * k;
  }

  /** No more completed than required shows at most 100. */
  lemma PercentAtMost100(c: nat, t: nat)
    requires c <= t
    ensures TotalPercent(c, t) <= 100
  {
    var p := TotalPercent(c, t);
    if t > 0 && p > 100 {
      MulMono(101, p, 2 * t);
      assert false;
    }
  }

  /** Every required NPC completed shows exactly 100. */
  lemma PercentAllDone(t: nat)
    requires t > 0
    ensures TotalPercent(t, t) == 100
  {
    var q := TotalPercent(t, t);
    if q < 100 {
      MulMono(q + 1, 100, 2 * t);
      assert false;
    }
    if q > 100 {
      MulMono(101, q, 2 * t);
      assert false;
    }
  }

  /** Nothing completed shows 0. */
  lemma PercentNoneDone(t: nat)
    ensures TotalPercent(0, t) == 0
  {
    var z := TotalPercent(0, t);
    if t > 0 && z > 0 {
      MulMono(1, z, 2 * t);
      assert false;
    }
  }

  /** Completing more never lowers the figure. */
  lemma PercentMonotone(c: nat, c': nat, t: nat)
    requires c <= c'
    ensures TotalPercent(c, t) <= TotalPercent(c', t)
  {
    var p, p' := TotalPercent(c, t), TotalPercent(c', t);
    if t > 0 && p > p' {
      MulMono(p' + 1, p, 2 * t);
      assert false;
    }
  }

  /** The figure shows 100 exactly when at least 99.5% are completed, so
      rounding can show 100 before the last NPC is done. */
  lemma RoundsToFull(c: nat, t: nat)
    requires 0 < t && c <= t
    ensures TotalPercent(c, t) == 100 <==> 200 * c >= 199 * t
  {
    var p := TotalPercent(c, t);
    PercentAtMost100(c, t);
    if 200 * c >= 199 * t && p < 100 {
      MulMono(p + 1, 100, 2 * t);
      assert false;
    }
  }

  /** For instance, 199 of 200 completed is 99.5, which shows 100. */
  lemma FullBeforeDone()
    ensures TotalPercent(199, 200) == 100
  {
    RoundsToFull(199, 200);
  }

  /** The largest avatar file accepted, 2 MiB. */
  const MaxAvatarBytes: int := 2 * 1024 * 1024

  datatype Toast = TooLarge | Uploading | Updated | UploadFailed

  /** The panel's own `isUploading` state. */
  class AvatarPanel {
    var isUploading: bool

    constructor()
      ensures !isUploading
    {
      isUploading := false;
    }

    /** `handleAvatarUpload(e)`: `fileSize` is the chosen file's size,
        `None` when no file was chosen; `upload` is the url the upload
        answers, `None` when it throws. No file does nothing; a file over
        2 MiB is refused with a warning before any upload. Otherwise the
        avatar is set, and a save scheduled, only when the upload
        succeeds, and `isUploading` is false again either way. */
    method HandleAvatarUpload(s: Store, fileSize: Option<int>, upload: Option<string>) returns (toasts: seq<Toast>)
      modifies this`isUploading, s`avatar, s`saveTimer
      ensures (fileSize.None? || fileSize.value > MaxAvatarBytes) ==>
        && isUploading == old(isUploading) && s.avatar == old(s.avatar) && s.saveTimer == old(s.saveTimer)
        && toasts == (if fileSize.None? then [] else [TooLarge])
      ensures fileSize.Some? && fileSize.value <= MaxAvatarBytes ==>
        && !isUploading
        && (upload.Some? ==> s.avatar == Some(upload.value) && s.saveTimer && toasts == [Uploading, Updated])
        && (upload.None? ==> s.avatar == old(s.avatar) && s.saveTimer == old(s.saveTimer) && toasts == [Uploading, UploadFailed])
      ensures s.avatar != old(s.avatar) ==> fileSize.Some? && fileSize.value <= MaxAvatarBytes && upload.Some?
    {
      if fileSize.None? {
        return [];
      }
      if fileSize.value > MaxAvatarBytes {
        return [TooLarge];
      }
      isUploading := true;
      toasts := [Uploading];
      if upload.Some? {
        s.UploadAvatar(upload.value);
        toasts := toasts + [Updated];
      } else {
        toasts := toasts + [UploadFailed];
      }
      isUploading := false;
    }
  }
}
