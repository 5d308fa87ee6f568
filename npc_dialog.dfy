/** The submit handler of the NPC dialog
    (frontend/src/components/NPCDialog.jsx): the validator's verdict
    decides what is recorded, rewarded and dropped, through the store's
    own operations.

    The validator call is not made here: its outcome is an input, either
    the verdict it returned or the fact that it threw. `Math.random()` is
    two samples in [0, 1); the drop rate and the prize pool come from the
    game configuration, which is not part of this model. */
module NpcDialog {
  import opened Common
  import opened Levels
  import opened GameStore

  datatype ValidatorOutcome = Threw | Verdict(passed: bool, feedback: string)

  /** The toasts the handler shows, in order. */
  datatype Notice =
    | EmptyInput
    | LuckyDrop(prize: string)
    | FirstPass(feedback: string)
    | Practice(feedback: string)
    | Failed(feedback: string)
    | ServiceDown

  /** Score for passing an NPC for the first time. */
  const FirstPassReward: int := 100

  /** `PRIZE_POOL[Math.floor(sample * PRIZE_POOL.length)]`: the index always
      lies within the pool. */
  function PrizeIndex(sample: real, poolSize: nat): (k: nat)
    requires 0.0 <= sample < 1.0 && poolSize > 0
    ensures k < poolSize
  {
    var f := (sample * poolSize as real).Floor;
    assert f as real <= sample * poolSize as real < poolSize as real;
    f as nat
  }

  /** The part of `handleSubmit` that runs on a first pass: 100 points
      through `addScore` (a forced save), then, when the drop sample is
      below the drop rate, the prize the second sample picks through
      `addInventory`. */
  method RewardFirstPass(store: Store, feedback: string, dropRate: real, prizePool: seq<string>,
                         dropSample: real, prizeSample: real)
    returns (notices: seq<Notice>)
    requires 0.0 <= prizeSample < 1.0 && |prizePool| > 0
    modifies store`score, store`saveTimer, store`isSaving, store`sent, store`inventory
    ensures store.score == old(store.score) + FirstPassReward
    ensures var prize := prizePool[PrizeIndex(prizeSample, |prizePool|)];
      && store.inventory == (if dropSample < dropRate && prize !in old(store.inventory)
                             then old(store.inventory) + [prize] else old(store.inventory))
      && notices == (if dropSample < dropRate then [LuckyDrop(prize)] else []) + [FirstPass(feedback)]
    ensures store.CanSave() ==>
      store.sent == old(store.sent) + [SaveRequest(store.playerId.value, Snapshot(store.score,
        old(store.inventory), store.position, store.avatar, store.completedNPCs), true)]
    ensures !store.CanSave() ==> store.sent == old(store.sent)
  {
    store.AddScore(FirstPassReward);
    notices := [];
    if dropSample < dropRate {
      var prize := prizePool[PrizeIndex(prizeSample, |prizePool|)];
      store.AddInventory(prize);
      notices := [LuckyDrop(prize)];
    }
    notices := notices + [FirstPass(feedback)];
  }

  /** The pass branch of `handleSubmit`: the attempt is recorded as
      passed, a first pass is rewarded, and the dialog closes with its
      input cleared. */
  method SubmitPass(store: Store, npc: Npc, input: string, feedback: string, dropRate: real,
                    prizePool: seq<string>, dropSample: real, prizeSample: real)
    returns (notices: seq<Notice>)
    requires 0.0 <= prizeSample < 1.0 && |prizePool| > 0
    modifies store`reports, store`completedNPCs, store`saveTimer, store`score, store`isSaving
    modifies store`sent, store`inventory, store`activeNPC, store`chatInput
    ensures store.reports == old(store.reports) + [CompletionReport(store.playerId, npc.id, npc.kind, input, feedback, true)]
    ensures var first := npc.id !in old(store.completedNPCs);
      && store.completedNPCs == (if first then old(store.completedNPCs) + [npc.id] else old(store.completedNPCs))
      && store.score == old(store.score) + (if first then FirstPassReward else 0)
    ensures npc.id in old(store.completedNPCs) ==>
      && notices == [Practice(feedback)]
      && store.inventory == old(store.inventory)
      && store.sent == old(store.sent)
      && store.isSaving == old(store.isSaving)
    ensures npc.id !in old(store.completedNPCs) ==>
      var prize := prizePool[PrizeIndex(prizeSample, |prizePool|)];
      && store.inventory == (if dropSample < dropRate && prize !in old(store.inventory)
                             then old(store.inventory) + [prize] else old(store.inventory))
      && notices == (if dropSample < dropRate then [LuckyDrop(prize)] else []) + [FirstPass(feedback)]
    ensures store.activeNPC == None && store.chatInput == ""
  {
    var alreadyCompleted := store.IsNPCCompleted(npc.id);
    store.MarkNPCCompleted(npc.id, npc.kind, input, feedback, true);
    if !alreadyCompleted {
      notices := RewardFirstPass(store, feedback, dropRate, prizePool, dropSample, prizeSample);
    } else {
      notices := [Practice(feedback)];
    }
    store.SetActiveNPC(None);
    store.SetChatInput("");
  }

  /** `handleSubmit()` while an NPC is active.

      Blank input only warns. A thrown validator only shows the error toast.
      Otherwise the attempt is recorded through `markNPCCompleted` with the
      verdict; a pass goes on as `SubmitPass` describes, a fail shows the
      feedback and leaves the dialog open with its input. */
  method HandleSubmit(store: Store, outcome: ValidatorOutcome, dropRate: real, prizePool: seq<string>,
                      dropSample: real, prizeSample: real)
    returns (notices: seq<Notice>)
    requires store.activeNPC.Some?
    requires 0.0 <= prizeSample < 1.0 && |prizePool| > 0
    modifies store`reports, store`completedNPCs, store`saveTimer, store`score, store`isSaving
    modifies store`sent, store`inventory, store`activeNPC, store`chatInput
    ensures Trim(old(store.chatInput)) == "" ==> notices == [EmptyInput]
    ensures Trim(old(store.chatInput)) != "" && outcome.Threw? ==> notices == [ServiceDown]
    ensures !Recorded(old(store.chatInput), outcome) ==>
      && store.reports == old(store.reports)
      && store.completedNPCs == old(store.completedNPCs)
      && store.score == old(store.score)
      && store.sent == old(store.sent)
    ensures Recorded(old(store.chatInput), outcome) ==>
      store.reports == old(store.reports) + [CompletionReport(store.playerId, old(store.activeNPC).value.id,
        old(store.activeNPC).value.kind, old(store.chatInput), outcome.feedback, outcome.passed)]
    ensures IsFirstPass(old(store.chatInput), outcome, old(store.activeNPC).value, old(store.completedNPCs)) ==>
      && store.completedNPCs == old(store.completedNPCs) + [old(store.activeNPC).value.id]
      && store.score == old(store.score) + FirstPassReward
    ensures !IsFirstPass(old(store.chatInput), outcome, old(store.activeNPC).value, old(store.completedNPCs)) ==>
      && store.completedNPCs == old(store.completedNPCs)
      && store.score == old(store.score)
      && store.inventory == old(store.inventory)
      && store.sent == old(store.sent)
    ensures IsPass(old(store.chatInput), outcome) ==> store.activeNPC == None && store.chatInput == ""
    ensures !IsPass(old(store.chatInput), outcome) ==>
      store.activeNPC == old(store.activeNPC) && store.chatInput == old(store.chatInput)
    ensures IsPass(old(store.chatInput), outcome) && old(store.activeNPC).value.id in old(store.completedNPCs) ==>
      notices == [Practice(outcome.feedback)]
    ensures Recorded(old(store.chatInput), outcome) && !outcome.passed ==> notices == [Failed(outcome.feedback)]
  {
    var npc := store.activeNPC.value;
    var input := store.chatInput;
    if Trim(input) == "" {
      assert !Recorded(input, outcome);
      return [EmptyInput];
    }
    match outcome {
      case Threw =>
        assert !Recorded(input, outcome);
        notices := [ServiceDown];
      case Verdict(passed, feedback) =>
        assert Recorded(input, outcome);
        ghost var first := npc.id !in store.completedNPCs;
        if passed {
          assert IsFirstPass(input, outcome, npc, store.completedNPCs) <==> first;
          notices := SubmitPass(store, npc, input, feedback, dropRate, prizePool, dropSample, prizeSample);
        } else {
          assert !IsPass(input, outcome) && !IsFirstPass(input, outcome, npc, store.completedNPCs);
          store.MarkNPCCompleted(npc.id, npc.kind, input, feedback, false);
          notices := [Failed(feedback)];
        }
    }
  }

  /** The validator was called and answered: the input was not blank and
      the call did not throw. */
  predicate Recorded(input: string, outcome: ValidatorOutcome)
  {
    Trim(input) != "" && outcome.Verdict?
  }

  predicate IsPass(input: string, outcome: ValidatorOutcome)
  {
    Recorded(input, outcome) && outcome.passed
  }

  /** A pass for an NPC that was not completed when the dialog rendered. */
  predicate IsFirstPass(input: string, outcome: ValidatorOutcome, npc: Npc, completed: seq<string>)
  {
    IsPass(input, outcome) && npc.id !in completed
  }
}
