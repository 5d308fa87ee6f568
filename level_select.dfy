/** The per-level card of the level picker
    (frontend/src/components/LevelSelect.jsx): which levels are unlocked,
    current and completed, which NPC badges show as done, and what a click
    does.

    `getLevelProgress` has no body in the store this model covers, so its
    percentages are an input: `percents[i]` is `getLevelProgress(i).percent`. */
module LevelSelect {
  import opened Common
  import opened Levels

  /** What one card of `LEVELS.map` shows. */
  datatype Card = Card(
    unlocked: bool,
    current: bool,
    completed: bool,
    badges: seq<bool>,
    showsProgress: bool)

  /** `index === 0 || getLevelProgress(index - 1).percent === 100` */
  predicate IsUnlocked(percents: seq<int>, index: nat)
    requires index < |percents|
  {
    index == 0 || percents[index - 1] == 100
  }

  /** `progress.percent === 100` */
  predicate IsCompleted(percents: seq<int>, index: nat)
    requires index < |percents|
  {
    percents[index] == 100
  }

  /** `player.completedNPCs.includes(npc.id)` for each NPC of the level, in
      configuration order. */
  function Badges(npcs: seq<Npc>, completed: seq<string>): (r: seq<bool>)
    ensures |r| == |npcs|
    ensures forall j :: 0 <= j < |npcs| ==> (r[j] <==> npcs[j].id in completed)
  {
    if npcs == [] then [] else [npcs[0].id in completed] + Badges(npcs[1..], completed)
  }

  /** The card of level `index`. The progress bar is rendered only for an
      unlocked level. */
  function CardOf(percents: seq<int>, index: nat, currentLevel: int, npcs: seq<Npc>, completed: seq<string>): (c: Card)
    requires index < |percents|
    ensures c.unlocked <==> (index == 0 || percents[index - 1] == 100)
    ensures c.completed <==> percents[index] == 100
    ensures c.current <==> index == currentLevel
    ensures c.showsProgress <==> c.unlocked
    ensures |c.badges| == |npcs| && forall j :: 0 <= j < |npcs| ==> (c.badges[j] <==> npcs[j].id in completed)
  {
    var unlocked := IsUnlocked(percents, index);
    Card(unlocked, index == currentLevel, IsCompleted(percents, index), Badges(npcs, completed), unlocked)
  }

  /** The click handler: the level to load, or nothing for a locked level. */
  function Click(percents: seq<int>, index: nat): (load: Option<nat>)
    requires index < |percents|
    ensures load.Some? <==> (index == 0 || percents[index - 1] == 100)
    ensures load.Some? ==> load.value == index
  {
    if IsUnlocked(percents, index) then Some(index) else None
  }

  /** Level 0 can always be loaded; level `k + 1` can be loaded exactly when
      level `k` is shown as completed. */
  lemma UnlockChain(percents: seq<int>, k: nat)
    requires k + 1 < |percents|
    ensures Click(percents, 0).Some?
    ensures Click(percents, k + 1).Some? <==> CardOf(percents, k, -1, [], []).completed
  {
  }

  /** When every level before `k` is complete, the whole prefix up to `k` is
      unlocked. */
  lemma {:induction false} PrefixUnlocked(percents: seq<int>, k: nat)
    requires k < |percents|
    requires forall i :: 0 <= i < k ==> percents[i] == 100
    ensures forall i :: 0 <= i <= k ==> IsUnlocked(percents, i)
  {
    forall i | 0 <= i <= k
      ensures IsUnlocked(percents, i)
    {
      if i > 0 {
        assert percents[i - 1] == 100;
      }
    }
  }
}
