/** The static level configuration and the completion rules derived from it
    (frontend/src/config/levels.js). The contents of levels.json are not part
    of this model: levels are values handed in by the caller. */
module Levels {
  import opened Common

  /** An NPC as configured: its id, its `type` and its tile. */
  datatype Npc = Npc(id: string, kind: string, x: int, y: int)

  /** A level; `grid` and `npcs` are `None` where the configuration leaves
      the property out. Tiles: 0 grass, 1 road, 9 wall. */
  datatype Level = Level(id: int, grid: Option<seq<seq<int>>>, npcs: Option<seq<Npc>>)

  /** The NPC kind that opens the assistant and never gates completion. */
  const AssistantKind: string := "assistant"

  /** Fallback map size when levels.json gives none. */
  const MapWidth: int := 24
  const MapHeight: int := 16

  predicate IsAssistant(n: Npc)
  {
    n.kind == AssistantKind
  }

  /** `getLevelConfig(i)`: `LEVELS[i]`, or null outside the list. */
  function LevelConfig(levels: seq<Level>, i: int): (r: Option<Level>)
    ensures 0 <= i < |levels| ==> r == Some(levels[i])
    ensures !(0 <= i < |levels|) ==> r == None
  {
    if 0 <= i < |levels| then Some(levels[i]) else None
  }

  datatype Size = Size(width: int, height: int)

  /** `getMapSize(level)`: width of the first row and number of rows, each
      replaced by its default when missing or zero. */
  function MapSize(level: Option<Level>): (r: Size)
    ensures (level.None? || level.value.grid.None?) ==> r == Size(MapWidth, MapHeight)
    ensures level.Some? && level.value.grid.Some? ==>
      var g := level.value.grid.value;
      && r.height == (if |g| == 0 then MapHeight else |g|)
      && r.width == (if |g| == 0 || |g[0]| == 0 then MapWidth else |g[0]|)
    ensures r.width > 0 && r.height > 0
  {
    if level.None? || level.value.grid.None? then Size(MapWidth, MapHeight)
    else
      var g := level.value.grid.value;
      Size(if |g| > 0 && |g[0]| > 0 then |g[0]| else MapWidth,
           if |g| > 0 then |g| else MapHeight)
  }

  /** `npcs.filter(n => n.type !== 'assistant').map(n => n.id)` */
  function RequiredOf(npcs: seq<Npc>): (r: seq<string>)
    ensures |r| <= |npcs|
  {
    if npcs == [] then []
    else if IsAssistant(npcs[0]) then RequiredOf(npcs[1..])
    else [npcs[0].id] + RequiredOf(npcs[1..])
  }

  /** `getRequiredNPCIds(level)` */
  function RequiredNPCIds(level: Option<Level>): (r: seq<string>)
    ensures (level.None? || level.value.npcs.None?) ==> r == []
  {
    if level.None? || level.value.npcs.None? then [] else RequiredOf(level.value.npcs.value)
  }

  /** The required ids are exactly the ids of the level's non-assistant NPCs. */
  lemma {:induction false} RequiredOfMembers(npcs: seq<Npc>, id: string)
    ensures id in RequiredOf(npcs) <==> exists k :: 0 <= k < |npcs| && !IsAssistant(npcs[k]) && npcs[k].id == id
  {
    if npcs != [] {
      RequiredOfMembers(npcs[1..], id);
      if exists k :: 0 <= k < |npcs| && !IsAssistant(npcs[k]) && npcs[k].id == id {
        var k :| 0 <= k < |npcs| && !IsAssistant(npcs[k]) && npcs[k].id == id;
        if k > 0 {
          assert npcs[1..][k - 1] == npcs[k];
        }
      }
      if id in RequiredOf(npcs[1..]) {
        var k :| 0 <= k < |npcs[1..]| && !IsAssistant(npcs[1..][k]) && npcs[1..][k].id == id;
        assert npcs[k + 1] == npcs[1..][k];
      }
    }
  }

  /** As many required ids as non-assistant NPCs; a level made only of
      assistants requires nothing. */
  function CountTasks(npcs: seq<Npc>): nat
  {
    if npcs == [] then 0 else (if IsAssistant(npcs[0]) then 0 else 1) + CountTasks(npcs[1..])
  }

  lemma {:induction false} RequiredOfLength(npcs: seq<Npc>)
    ensures |RequiredOf(npcs)| == CountTasks(npcs)
    ensures (forall k :: 0 <= k < |npcs| ==> IsAssistant(npcs[k])) ==> RequiredOf(npcs) == []
  {
    if npcs != [] {
      RequiredOfLength(npcs[1..]);
      if forall k :: 0 <= k < |npcs| ==> IsAssistant(npcs[k]) {
        assert forall k :: 0 <= k < |npcs[1..]| ==> npcs[1..][k] == npcs[k + 1];
      }
    }
  }

  /** `ids.every(id => completed.includes(id))` */
  predicate Every(ids: seq<string>, completed: seq<string>)
  {
    ids == [] || (ids[0] in completed && Every(ids[1..], completed))
  }

  /** `isLevelCompleted(level, completed)` */
  predicate IsLevelCompleted(level: Option<Level>, completed: seq<string>)
  {
    Every(RequiredNPCIds(level), completed)
  }

  lemma {:induction false} EveryMeans(ids: seq<string>, completed: seq<string>)
    ensures Every(ids, completed) <==> forall k :: 0 <= k < |ids| ==> ids[k] in completed
  {
    if ids != [] {
      EveryMeans(ids[1..], completed);
      assert forall k :: 1 <= k < |ids| ==> ids[1..][k - 1] == ids[k];
    }
  }

  /** A level is completed iff each of its non-assistant NPCs is in the
      completed list. */
  lemma CompletedIff(level: Level, completed: seq<string>)
    requires level.npcs.Some?
    ensures IsLevelCompleted(Some(level), completed) <==>
      forall k :: 0 <= k < |level.npcs.value| && !IsAssistant(level.npcs.value[k]) ==>
        level.npcs.value[k].id in completed
  {
    var npcs := level.npcs.value;
    var req := RequiredOf(npcs);
    EveryMeans(req, completed);
    if IsLevelCompleted(Some(level), completed) {
      forall k | 0 <= k < |npcs| && !IsAssistant(npcs[k])
        ensures npcs[k].id in completed
      {
        RequiredOfMembers(npcs, npcs[k].id);
      }
    } else {
      var j :| 0 <= j < |req| && req[j] !in completed;
      RequiredOfMembers(npcs, req[j]);
    }
  }

  /** A level that requires nothing (missing, without NPCs, or only
      assistants) is completed whatever has been completed. */
  lemma VacuouslyCompleted(level: Option<Level>, completed: seq<string>)
    requires RequiredNPCIds(level) == []
    ensures IsLevelCompleted(level, completed)
  {
  }

  /** Completion is monotone: completing more NPCs never un-completes a level. */
  lemma {:induction false} CompletionMonotone(level: Option<Level>, c1: seq<string>, c2: seq<string>)
    requires forall id :: id in c1 ==> id in c2
    requires IsLevelCompleted(level, c1)
    ensures IsLevelCompleted(level, c2)
  {
    var req := RequiredNPCIds(level);
    EveryMeans(req, c1);
    EveryMeans(req, c2);
  }
}
