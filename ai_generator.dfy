/**
 * The schedule generator's custom instructions (AIGenerator.tsx): a list of
 * prompt texts edited by add, update and remove, of which only the non-blank
 * ones are sent with a plan request; generating a plan opens the game overlay
 * and ends its loading state when the request settles.
 */
module AIGenerator {
  import opened Common
  import Text
  import GameContext

  /** The list starts with one empty prompt. */
  const InitialPrompts: seq<string> := [""]

  const GeneratingText := "Generating your AI schedule... Enjoy this game while you wait!"

  /** addCustomPrompt: one empty prompt more at the end. */
  function AddPrompt(ps: seq<string>): (r: seq<string>)
    ensures |r| == |ps| + 1 && r[..|ps|] == ps && r[|ps|] == ""
  {
    ps + [""]
  }

  /** updateCustomPrompt: the prompt at `index` (if any) takes `value`. */
  function UpdatePrompt(ps: seq<string>, index: int, value: string): (r: seq<string>)
    ensures |r| == |ps|
    ensures forall i :: 0 <= i < |ps| ==> r[i] == if i == index then value else ps[i]
  {
    seq(|ps|, i requires 0 <= i < |ps| => if i == index then value else ps[i])
  }

  /** Updating is sequence update in range and nothing out of range. */
  lemma UpdateIsSequenceUpdate(ps: seq<string>, index: int, value: string)
    ensures 0 <= index < |ps| ==> UpdatePrompt(ps, index, value) == ps[index := value]
    ensures !(0 <= index < |ps|) ==> UpdatePrompt(ps, index, value) == ps
  {
  }

  /** removeCustomPrompt: keep every prompt whose position is not `index`. */
  function RemovePrompt(ps: seq<string>, index: int): (r: seq<string>)
    ensures |r| <= |ps|
  {
    if |ps| == 0 then []
    else RemovePrompt(ps[..|ps| - 1], index) + (if |ps| - 1 != index then [ps[|ps| - 1]] else [])
  }

  /** Removing deletes exactly the prompt at `index` when there is one, and nothing
      otherwise. */
  lemma {:induction false} RemoveDeletesOne(ps: seq<string>, index: int)
    ensures 0 <= index < |ps| ==> RemovePrompt(ps, index) == ps[..index] + ps[index + 1..]
    ensures !(0 <= index < |ps|) ==> RemovePrompt(ps, index) == ps
  {
    if |ps| > 0 {
      var init := ps[..|ps| - 1];
      RemoveDeletesOne(init, index);
      if index == |ps| - 1 {
        assert RemovePrompt(ps, index) == init;
        assert ps[index + 1..] == [];
      } else if 0 <= index < |ps| - 1 {
        assert init[..index] == ps[..index];
        assert init[index + 1..] + [ps[|ps| - 1]] == ps[index + 1..];
      } else {
        assert init + [ps[|ps| - 1]] == ps;
      }
    }
  }

  /** Adding a prompt and removing the new one gives the list back. */
  lemma AddThenRemove(ps: seq<string>)
    ensures RemovePrompt(AddPrompt(ps), |ps|) == ps
  {
    RemoveDeletesOne(AddPrompt(ps), |ps|);
    assert AddPrompt(ps)[..|ps|] == ps;
  }

  /** The prompts sent with a plan: those whose trimmed text is not empty, in order. */
  function ValidPrompts(ps: seq<string>): (r: seq<string>)
    ensures |r| <= |ps|
  {
    if |ps| == 0 then []
    else ValidPrompts(ps[..|ps| - 1]) + (if !Text.IsBlank(ps[|ps| - 1]) then [ps[|ps| - 1]] else [])
  }

  lemma {:induction false} ValidPromptsMembers(ps: seq<string>)
    ensures forall p :: p in ValidPrompts(ps) <==> p in ps && !Text.IsBlank(p)
  {
    if |ps| > 0 {
      var init := ps[..|ps| - 1];
      ValidPromptsMembers(init);
      assert ps == init + [ps[|ps| - 1]];
    }
  }

  /** Every prompt is kept when none is blank. */
  lemma {:induction false} ValidPromptsAllKept(ps: seq<string>)
    requires forall i :: 0 <= i < |ps| ==> !Text.IsBlank(ps[i])
    ensures ValidPrompts(ps) == ps
  {
    if |ps| > 0 {
      ValidPromptsAllKept(ps[..|ps| - 1]);
      assert ps[..|ps| - 1] + [ps[|ps| - 1]] == ps;
    }
  }

  /** The request options: `{customPrompts}` with the valid prompts, or undefined
      when none is valid. */
  function PlanOptions(ps: seq<string>): (r: Option<seq<string>>)
    ensures r.Some? ==> r.value == ValidPrompts(ps) && r.value != []
    ensures r.None? <==> ValidPrompts(ps) == []
  {
    var valid := ValidPrompts(ps);
    if |valid| > 0 then Some(valid) else None
  }

  /** The initial list sends no options: its only prompt is empty. */
  lemma InitialSendsNoOptions()
    ensures PlanOptions(InitialPrompts) == None
  {
    assert Text.IsBlank(InitialPrompts[0]);
    assert InitialPrompts[..0] == [];
  }

  /** Options are sent exactly when some prompt is not blank. */
  lemma OptionsIffSomeNonBlank(ps: seq<string>)
    ensures PlanOptions(ps).Some? <==> exists i :: 0 <= i < |ps| && !Text.IsBlank(ps[i])
  {
    ValidPromptsMembers(ps);
    if PlanOptions(ps).Some? {
      var p := ValidPrompts(ps)[0];
      assert p in ValidPrompts(ps);
      var i :| 0 <= i < |ps| && ps[i] == p;
    } else {
      forall i | 0 <= i < |ps|
        ensures Text.IsBlank(ps[i])
      {
        assert ps[i] !in ValidPrompts(ps);
      }
    }
  }

  /** The plan request: its options. */
  datatype Request = GeneratePlan(options: Option<seq<string>>)

  /** generatePlanMutation's mutation function: open the game overlay as loading
      with the generating text and no completion callback, and send the request. */
  method StartGeneratePlan(game: GameContext.GameProvider, ps: seq<string>) returns (req: Request)
    modifies game
    ensures req == GeneratePlan(PlanOptions(ps))
    ensures game.isGameOpen && game.isGameLoading
    ensures game.gameLoadingText == GeneratingText && game.onGameComplete.None?
    ensures game.invocations == old(game.invocations)
  {
    game.OpenGame(Some(true), Some(GeneratingText), None, None);
    req := GeneratePlan(PlanOptions(ps));
  }

  /** The request settled, successfully or not: the overlay stays open and stops
      loading. */
  method GeneratePlanSettled(game: GameContext.GameProvider)
    modifies game`isGameLoading
    ensures !game.isGameLoading
    ensures game.isGameOpen == old(game.isGameOpen) && game.gameLoadingText == old(game.gameLoadingText)
    ensures game.onGameComplete == old(game.onGameComplete)
    ensures game.invocations == old(game.invocations)
  {
    game.SetGameLoading(false);
  }
}
