/** The client-side game store (frontend/src/store/gameStore.js): the
    player's session state, the debounced save timer and the `isSaving`
    flag, and the requests the store hands to the backend.

    Requests are not executed here: every save the store sends is appended
    to `sent`, every completion report to `reports`. A `setTimeout` handle
    is the flag `saveTimer`; the timer firing is the separate step
    `FireTimer`. `saveProgressNow` runs in two steps, `StartSave` (up to
    its `await`) and `FinishSave` (its `finally`), so that the state in
    which a save is in flight can be observed; `SaveProgressNow` runs both,
    which is what every awaiting caller sees. */
module GameStore {
  import opened Common
  import opened Levels

  datatype Direction = Up | Down | Left | Right

  /** The body of a save: `{ score, inventory, position, avatar, completed_npcs }`. */
  datatype Snapshot = Snapshot(
    score: int, inventory: seq<string>, position: Pos, avatar: Option<string>, completed: seq<string>)

  /** `saveUserProgress(id, data, { forceSave })` as sent to `POST /save`. */
  datatype SaveRequest = SaveRequest(userId: string, data: Snapshot, force: bool)

  /** `completeNPC({ userId, npcId, npcType, content, feedback, passed })`. */
  datatype CompletionReport = CompletionReport(
    userId: Option<string>, npcId: string, npcType: string, content: string, feedback: string, passed: bool)

  /** The `user` object of a successful `/login` answer; `None` where a
      property is missing or null. */
  datatype LoginUser = LoginUser(
    id: string, username: string, position: Option<Pos>, score: Option<int>,
    inventory: Option<seq<string>>, avatarUrl: Option<string>, avatar: Option<string>,
    completed: Option<seq<string>>)

  /** The delay of the debounced save, in milliseconds. */
  const SaveDelayMs: int := 2000

  /** `a || b` for optional strings: the empty string is falsy. */
  function OrString(a: Option<string>, b: Option<string>): (r: Option<string>)
    ensures a.Some? && a.value != "" ==> r == a
    ensures (a.None? || a.value == "") ==> r == b
  {
    if a.Some? && a.value != "" then a else b
  }

  /** The player a successful login installs: every missing field of the
      answer falls back to its default (spawn point, score 0, nothing
      collected, the first non-empty of `avatar_url` and `avatar`, and null
      when both are missing or empty). */
  function LoginSnapshot(u: LoginUser): (r: Snapshot)
    ensures r.position == (if u.position.Some? then u.position.value else DefaultPos)
    ensures r.score == (if u.score.Some? then u.score.value else 0)
    ensures r.inventory == (if u.inventory.Some? then u.inventory.value else [])
    ensures r.completed == (if u.completed.Some? then u.completed.value else [])
    ensures r.avatar == OrString(u.avatarUrl, OrString(u.avatar, None))
    ensures r.avatar.None? || r.avatar.value != ""
  {
    Snapshot(
      if u.score.Some? then u.score.value else 0,
      if u.inventory.Some? then u.inventory.value else [],
      if u.position.Some? then u.position.value else DefaultPos,
      OrString(u.avatarUrl, OrString(u.avatar, None)),
      if u.completed.Some? then u.completed.value else [])
  }

  class Store {
    var isLoggedIn: bool
    var isLoading: bool
    var playerId: Option<string>
    var name: string
    var position: Pos
    var direction: Direction
    var score: int
    var inventory: seq<string>
    var avatar: Option<string>
    var completedNPCs: seq<string>
    var activeNPC: Option<Npc>
    var chatInput: string
    /** A debounced save is pending. */
    var saveTimer: bool
    var isSaving: bool
    /** Every save request handed to the backend, oldest first. */
    var sent: seq<SaveRequest>
    /** Every completion report handed to the backend, oldest first. */
    var reports: seq<CompletionReport>

    /** The store as created: logged out, at the spawn point, no timer. */
    constructor ()
      ensures !isLoggedIn && !isLoading && playerId == None && name == ""
      ensures position == DefaultPos && direction == Down && score == 0
      ensures inventory == [] && avatar == None && completedNPCs == []
      ensures activeNPC == None && chatInput == ""
      ensures !saveTimer && !isSaving && sent == [] && reports == []
    {
      isLoggedIn, isLoading := false, false;
      playerId, name := None, "";
      position, direction, score := DefaultPos, Down, 0;
      inventory, avatar, completedNPCs := [], None, [];
      activeNPC, chatInput := None, "";
      saveTimer, isSaving := false, false;
      sent, reports := [], [];
    }

    /** `!state.player.id` is false: there is a non-empty player id. */
    predicate HasPlayerId()
      reads this
    {
      playerId.Some? && playerId.value != ""
    }

    /** `saveProgressNow` gets past its first guard. */
    predicate CanSave()
      reads this
    {
      isLoggedIn && HasPlayerId()
    }

    /** The data a save sends, read from the current player. */
    function CurrentSnapshot(): Snapshot
      reads this
    {
      Snapshot(score, inventory, position, avatar, completedNPCs)
    }

    /** `isNPCCompleted(npcId)` */
    predicate IsNPCCompleted(npcId: string)
      reads this
    {
      npcId in completedNPCs
    }

    /** `login(username)` once the backend has answered: `user` is the
        answer's user on success and `None` on failure or a thrown request.
        Missing fields fall back to the defaults. */
    method Login(user: Option<LoginUser>) returns (ok: bool)
      modifies this`isLoading, this`isLoggedIn, this`playerId, this`name, this`direction
      modifies this`position, this`score, this`inventory, this`avatar, this`completedNPCs
      ensures ok == user.Some? && !isLoading
      ensures CurrentSnapshot() == if user.Some? then LoginSnapshot(user.value) else old(CurrentSnapshot())
      ensures isLoggedIn == (user.Some? || old(isLoggedIn))
      ensures playerId == if user.Some? then Some(user.value.id) else old(playerId)
      ensures user.Some? ==> name == user.value.username && direction == Down
      ensures user.None? ==> name == old(name) && direction == old(direction)
    {
      isLoading := false;
      ok := user.Some?;
      if ok {
        var u := user.value;
        var p := LoginSnapshot(u);
        isLoggedIn, playerId, name, direction := true, Some(u.id), u.username, Down;
        position, score, inventory, avatar, completedNPCs := p.position, p.score, p.inventory, p.avatar, p.completed;
      }
    }

    /** `updatePosition(p)`: moves the player and schedules no save. */
    method UpdatePosition(p: Pos)
      modifies this`position
      ensures position == p
    {
      position := p;
    }

    /** `updateDirection(d)` */
    method UpdateDirection(d: Direction)
      modifies this`direction
      ensures direction == d
    {
      direction := d;
    }

    /** `scheduleSaveProgress()`: starts the timer only when none is
        pending, so at most one debounced save is ever outstanding; when
        one is pending nothing changes at all. */
    method ScheduleSaveProgress()
      modifies this`saveTimer
      ensures saveTimer
    {
      if saveTimer {
        return;
      }
      saveTimer := true;
    }

    /** `saveProgressNow(force)` up to its `await`. Logged out or without a
        player id it does nothing, the pending timer included. Otherwise it
        clears the timer first; then a non-forced call while a save is in
        flight is dropped, and any other call sends the current snapshot. */
    method StartSave(force: bool) returns (didSend: bool)
      modifies this`saveTimer, this`isSaving, this`sent
      ensures !CanSave() ==> saveTimer == old(saveTimer)
      ensures CanSave() ==> !saveTimer
      ensures didSend <==> (CanSave() && (force || !old(isSaving)))
      ensures didSend ==> isSaving && sent == old(sent) + [SaveRequest(playerId.value, CurrentSnapshot(), force)]
      ensures !didSend ==> isSaving == old(isSaving) && sent == old(sent)
    {
      if !CanSave() {
        return false;
      }
      if saveTimer {
        saveTimer := false;
      }
      if isSaving && !force {
        return false;
      }
      isSaving := true;
      sent := sent + [SaveRequest(playerId.value, CurrentSnapshot(), force)];
      didSend := true;
    }

    /** The `finally` of `saveProgressNow`: whether the request succeeded
        or failed, the error is swallowed and only `isSaving` changes. */
    method FinishSave()
      modifies this`isSaving
      ensures !isSaving
    {
      isSaving := false;
    }

    /** An awaited `saveProgressNow(force)`: a save that went out has
        settled by the time the call returns. A forced call always sends
        when logged in with a player id. */
    method SaveProgressNow(force: bool) returns (didSend: bool)
      modifies this`saveTimer, this`isSaving, this`sent
      ensures !CanSave() ==> saveTimer == old(saveTimer)
      ensures CanSave() ==> !saveTimer
      ensures didSend <==> (CanSave() && (force || !old(isSaving)))
      ensures didSend ==> !isSaving && sent == old(sent) + [SaveRequest(playerId.value, CurrentSnapshot(), force)]
      ensures !didSend ==> isSaving == old(isSaving) && sent == old(sent)
    {
      didSend := StartSave(force);
      if didSend {
        FinishSave();
      }
    }

    /** The debounce timer elapsing: its callback runs a non-forced
        `saveProgressNow()` without awaiting it. A timer that fires while
        logged out is never cleared. */
    method FireTimer() returns (didSend: bool)
      requires saveTimer
      modifies this`saveTimer, this`isSaving, this`sent
      ensures didSend <==> (CanSave() && !old(isSaving))
      ensures saveTimer <==> !CanSave()
      ensures didSend ==> isSaving && sent == old(sent) + [SaveRequest(playerId.value, CurrentSnapshot(), false)]
      ensures !didSend ==> isSaving == old(isSaving) && sent == old(sent)
    {
      didSend := StartSave(false);
    }

    /** `addScore(points)`: adds the points, then forces a save. */
    method AddScore(points: int)
      modifies this`score, this`saveTimer, this`isSaving, this`sent
      ensures score == old(score) + points
      ensures CanSave() ==> !saveTimer && !isSaving && sent == old(sent) + [SaveRequest(playerId.value, CurrentSnapshot(), true)]
      ensures !CanSave() ==> saveTimer == old(saveTimer) && isSaving == old(isSaving) && sent == old(sent)
    {
      score := score + points;
      var _ := SaveProgressNow(true);
    }

    /** `addInventory(item)`: appends the item only when it is absent, so a
        duplicate-free inventory stays duplicate-free, and schedules a save
        in either case. */
    method AddInventory(item: string)
      modifies this`inventory, this`saveTimer
      ensures inventory == if item in old(inventory) then old(inventory) else old(inventory) + [item]
      ensures item in inventory
      ensures NoDup(old(inventory)) ==> NoDup(inventory)
      ensures saveTimer
    {
      if item !in inventory {
        if NoDup(inventory) {
          NoDupAppend(inventory, item);
        }
        inventory := inventory + [item];
      }
      ScheduleSaveProgress();
    }

    /** `uploadAvatar(url)`: sets the avatar and schedules a save. */
    method UploadAvatar(url: string)
      modifies this`avatar, this`saveTimer
      ensures avatar == Some(url) && saveTimer
    {
      avatar := Some(url);
      ScheduleSaveProgress();
    }

    /** `markNPCCompleted(...)`: always reports the attempt to the backend
        (a failing report is swallowed); appends the id locally only on a
        pass for an id not yet present, and schedules a save only then. The
        completed list only grows and never gains a duplicate. */
    method MarkNPCCompleted(npcId: string, npcType: string, content: string, feedback: string, passed: bool)
      modifies this`reports, this`completedNPCs, this`saveTimer
      ensures reports == old(reports) + [CompletionReport(playerId, npcId, npcType, content, feedback, passed)]
      ensures var appended := passed && npcId !in old(completedNPCs);
        && completedNPCs == (if appended then old(completedNPCs) + [npcId] else old(completedNPCs))
        && (appended ==> saveTimer)
        && (!appended ==> saveTimer == old(saveTimer))
      ensures old(saveTimer) ==> saveTimer
      ensures NoDup(old(completedNPCs)) ==> NoDup(completedNPCs)
      ensures passed ==> npcId in completedNPCs
    {
      reports := reports + [CompletionReport(playerId, npcId, npcType, content, feedback, passed)];
      if passed && npcId !in completedNPCs {
        if NoDup(completedNPCs) {
          NoDupAppend(completedNPCs, npcId);
        }
        completedNPCs := completedNPCs + [npcId];
        ScheduleSaveProgress();
      }
    }

    /** `logout()`: forces a save of the current player, then resets the
        player to the spawn point with nothing collected. */
    method Logout()
      modifies this`saveTimer, this`isSaving, this`sent, this`isLoggedIn, this`playerId, this`name
      modifies this`position, this`direction, this`score, this`inventory, this`avatar, this`completedNPCs
      ensures old(CanSave()) ==> sent == old(sent) + [SaveRequest(old(playerId).value, old(CurrentSnapshot()), true)]
      ensures old(CanSave()) ==> !saveTimer && !isSaving
      ensures !old(CanSave()) ==> sent == old(sent) && saveTimer == old(saveTimer) && isSaving == old(isSaving)
      ensures !isLoggedIn && playerId == None && name == "" && direction == Down
      ensures CurrentSnapshot() == Snapshot(0, [], DefaultPos, None, [])
    {
      var _ := SaveProgressNow(true);
      isLoggedIn := false;
      playerId, name := None, "";
      position, direction, score := DefaultPos, Down, 0;
      inventory, avatar, completedNPCs := [], None, [];
    }

    /** `setActiveNPC(npc)` */
    method SetActiveNPC(npc: Option<Npc>)
      modifies this`activeNPC
      ensures activeNPC == npc
    {
      activeNPC := npc;
    }

    /** `setChatInput(text)` */
    method SetChatInput(text: string)
      modifies this`chatInput
      ensures chatInput == text
    {
      chatInput := text;
    }
  }

  /** Every row of a grid is as long as the first. */
  predicate Rectangular(grid: seq<seq<int>>)
  {
    forall y :: 0 <= y < |grid| ==> |grid[y]| == |grid[0]|
  }

  /** `canMoveTo(x, y)` over `INITIAL_MAP`: the row must exist, `x` must lie
      within the width of the first row, and the tile must not be a wall (9).
      A tile past the end of a shorter row reads `undefined`, which is not 9. */
  function CanMoveTo(grid: seq<seq<int>>, x: int, y: int): (r: bool)
    ensures r ==> 0 <= y < |grid| && 0 <= x < |grid[0]|
    ensures r ==> x >= |grid[y]| || grid[y][x] != 9
    ensures Rectangular(grid) ==> (r <==> 0 <= y < |grid| && 0 <= x < |grid[y]| && grid[y][x] != 9)
  {
    if y < 0 || y >= |grid| then false
    else if x < 0 || x >= |grid[0]| then false
    else x >= |grid[y]| || grid[y][x] != 9
  }

  /** `NPCS.find(n => n.id === npcId)`: the first NPC with that id. */
  function FindNpc(npcs: seq<Npc>, npcId: string): (r: Option<Npc>)
    ensures r.None? <==> forall k :: 0 <= k < |npcs| ==> npcs[k].id != npcId
    ensures r.Some? ==> exists k :: (0 <= k < |npcs| && npcs[k] == r.value && r.value.id == npcId
      && forall j :: 0 <= j < k ==> npcs[j].id != npcId)
  {
    if npcs == [] then None
    else if npcs[0].id == npcId then Some(npcs[0])
    else
      var r := FindNpc(npcs[1..], npcId);
      assert forall k :: 1 <= k < |npcs| ==> npcs[k] == npcs[1..][k - 1];
      if r.Some? then
        var k :| 0 <= k < |npcs[1..]| && npcs[1..][k] == r.value && r.value.id == npcId
          && forall j :: 0 <= j < k ==> npcs[1..][j].id != npcId;
        assert npcs[k + 1] == r.value;
        r
      else r
  }

  function Abs(n: int): nat
  {
    if n < 0 then -n else n
  }

  /** `canInteractWithNPC(npcId)`: the NPC that `find` returns, the first
      with that id, exists and stands at Manhattan distance at most 1 (the
      source's `<= 1.5` on whole tiles). */
  function CanInteractWithNPC(npcs: seq<Npc>, pos: Pos, npcId: string): (r: bool)
    ensures r ==> exists k :: (0 <= k < |npcs| && npcs[k].id == npcId
      && Abs(npcs[k].x - pos.x) + Abs(npcs[k].y - pos.y) <= 1)
    ensures (forall k :: 0 <= k < |npcs| ==> npcs[k].id != npcId) ==> !r
    ensures r <==> FindNpc(npcs, npcId).Some?
                   && Abs(FindNpc(npcs, npcId).value.x - pos.x) + Abs(FindNpc(npcs, npcId).value.y - pos.y) <= 1
  {
    match FindNpc(npcs, npcId)
    case None => false
    case Some(n) => Abs(n.x - pos.x) + Abs(n.y - pos.y) <= 1
  }

  /** A burst of inventory additions while logged in, with nothing in
      flight, ends in exactly one save when the timer fires, and that save
      carries the latest snapshot. */
  method DebouncedBurst(s: Store, items: seq<string>)
    requires s.CanSave() && !s.isSaving && |items| > 0
    modifies s
    ensures s.CanSave() && |s.sent| == |old(s.sent)| + 1
    ensures s.sent[|s.sent| - 1] == SaveRequest(s.playerId.value, s.CurrentSnapshot(), false)
    ensures forall k :: 0 <= k < |items| ==> items[k] in s.inventory
  {
    var i := 0;
    while i < |items|
      invariant 0 <= i <= |items|
      invariant s.CanSave() && !s.isSaving && s.sent == old(s.sent)
      invariant i > 0 ==> s.saveTimer
      invariant forall k :: 0 <= k < i ==> items[k] in s.inventory
    {
      s.AddInventory(items[i]);
      i := i + 1;
    }
    var _ := s.FireTimer();
  }
}
