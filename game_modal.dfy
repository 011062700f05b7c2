/**
 * The dialog around the car game (GameModal.tsx): it resets when it opens,
 * loads the user's high score (falling back to localStorage), keeps the best
 * score seen, saves a non-zero score when it is closed, and describes the
 * scores under its title.
 */
module GameModal {
  import opened Common
  import Text

  /** The answer of the high-score endpoint: `highScore` and `allTimeHigh`
      (None when missing or 0). */
  datatype HighScoreResponse = HighScoreResponse(highScore: int, allTimeHigh: Option<int>)

  /** What the dialog sends or calls. */
  datatype Event =
    | SaveScore(score: int)   // `apiClient.saveGameHighScore`
    | GameEnd(score: int)     // the `onGameEnd` prop
    | Close                   // the `onClose` prop

  /** The dialog's state and the `carGameHighScore` localStorage value it reads
      and writes (None when unset). */
  class Modal {
    var gameScore: int
    var highScore: int
    var allTimeHigh: int
    var readyToClose: bool
    var storedHighScore: Option<int>
    var events: seq<Event>

    constructor (stored: Option<int>)
      ensures gameScore == 0 && highScore == 0 && allTimeHigh == 0 && !readyToClose
      ensures storedHighScore == stored && events == []
    {
      gameScore, highScore, allTimeHigh := 0, 0, 0;
      readyToClose := false;
      storedHighScore := stored;
      events := [];
    }

    /** The open effect, before the high score arrives: nothing is ready to close
        and no score has been reached yet. */
    method Open()
      modifies `readyToClose, `gameScore
      ensures !readyToClose && gameScore == 0
    {
      readyToClose := false;
      gameScore := 0;
    }

    /** The high-score request answered; `response` is None for a falsy answer. A
        non-zero high score is taken with its all-time high (0 when missing);
        otherwise the stored high score, if any, is used. */
    method HighScoreLoaded(response: Option<HighScoreResponse>)
      modifies `highScore, `allTimeHigh
      ensures response.Some? && response.value.highScore != 0 ==>
        highScore == response.value.highScore && allTimeHigh == response.value.allTimeHigh.GetOr(0)
      ensures !(response.Some? && response.value.highScore != 0) ==>
        highScore == old(storedHighScore.GetOr(highScore)) && allTimeHigh == old(allTimeHigh)
    {
      if response.Some? && response.value.highScore != 0 {
        highScore := response.value.highScore;
        allTimeHigh := response.value.allTimeHigh.GetOr(0);
      } else {
        UseStoredHighScore();
      }
    }

    /** The high-score request failed: the stored high score, if any, is used. */
    method HighScoreFailed()
      modifies `highScore
      ensures highScore == old(storedHighScore.GetOr(highScore))
    {
      UseStoredHighScore();
    }

    method UseStoredHighScore()
      modifies `highScore
      ensures highScore == old(storedHighScore.GetOr(highScore))
    {
      if storedHighScore.Some? {
        highScore := storedHighScore.value;
      }
    }

    /** handleGameEnd as the game calls it: the game keeps the handler of the render
        in which it started, so the score is compared with the high score of that
        render (`renderedHighScore`), not with the one shown now. The score is
        shown, becomes the high score (and is stored) when it beats the rendered
        one, and is passed on to the parent's callback if there is one. */
    method HandleGameEnd(score: int, renderedHighScore: int, hasOnGameEnd: bool)
      modifies `gameScore, `highScore, `storedHighScore, `events
      ensures gameScore == score
      ensures highScore == if score > renderedHighScore then score else old(highScore)
      ensures storedHighScore == if score > renderedHighScore then Some(score) else old(storedHighScore)
      ensures events == old(events) + (if hasOnGameEnd then [GameEnd(score)] else [])
    {
      gameScore := score;
      if score > renderedHighScore {
        highScore := score;
        storedHighScore := Some(score);
      }
      if hasOnGameEnd {
        events := events + [GameEnd(score)];
      }
    }

    /** saveScore: only a score above 0 is sent. */
    method Save()
      modifies `events
      ensures events == old(events) + (if gameScore > 0 then [SaveScore(gameScore)] else [])
    {
      if gameScore > 0 {
        events := events + [SaveScore(gameScore)];
      }
    }

    /** handleClose, handleShowResult and the dialog's own close all save the score
        and then close. */
    method HandleClose()
      modifies `events
      ensures events == old(events) + (if gameScore > 0 then [SaveScore(gameScore)] else []) + [Close]
    {
      Save();
      events := events + [Close];
    }

    method HandleShowResult()
      modifies `events
      ensures events == old(events) + (if gameScore > 0 then [SaveScore(gameScore)] else []) + [Close]
    {
      Save();
      events := events + [Close];
    }

    method DialogOpenChange(open: bool)
      modifies `events
      ensures !open ==> events == old(events) + (if gameScore > 0 then [SaveScore(gameScore)] else []) + [Close]
      ensures open ==> events == old(events)
    {
      if !open {
        Save();
        events := events + [Close];
      }
    }

    /** handleContinuePlaying. */
    method HandleContinuePlaying()
      modifies `readyToClose
      ensures !readyToClose
    {
      readyToClose := false;
    }
  }

  /** The dialog's text lines: the instructions and the three score lines. */
  const Instructions := "Use arrow keys to control the car. " + "Don't crash!"

  function ScoreLine(score: int): string {
    "Your score: " + Text.IntToString(score)
  }

  function HighScoreLine(highScore: int): (r: string)
    ensures |r| > 0 && r[0] == 'Y'
  {
    "Your high score: " + Text.IntToString(highScore)
  }

  function AllTimeLine(allTimeHigh: int): (r: string)
    ensures |r| > 0 && r[0] == 'A'
  {
    "All-time high: " + Text.IntToString(allTimeHigh)
  }

  /** The lines under the dialog's title: the loading text while loading; the
      score, the high score and the all-time high once a game ended; otherwise the
      instructions, the high score only when above 0, and the all-time high. */
  function DescriptionLines(isLoading: bool, loadingText: string, gameScore: int, highScore: int, allTimeHigh: int): (r: seq<string>)
    ensures isLoading ==> r == [loadingText]
    ensures !isLoading && gameScore > 0 ==> |r| == 3 && r[0] == ScoreLine(gameScore)
    ensures !isLoading && gameScore > 0 ==> r[1] == HighScoreLine(highScore)
    ensures !isLoading ==> 2 <= |r| <= 3 && r[|r| - 1] == AllTimeLine(allTimeHigh)
    ensures !isLoading ==> (HighScoreLine(highScore) in r <==> gameScore > 0 || highScore > 0)
    ensures !isLoading && gameScore <= 0 ==>
      && r[0] == Instructions
      && |r| == (if highScore > 0 then 3 else 2)
      && (highScore > 0 ==> r[1] == HighScoreLine(highScore))
  {
    if isLoading then [loadingText]
    else if gameScore > 0 then [ScoreLine(gameScore), HighScoreLine(highScore), AllTimeLine(allTimeHigh)]
    else if highScore > 0 then [Instructions, HighScoreLine(highScore), AllTimeLine(allTimeHigh)]
    else
      var high, allTime := HighScoreLine(highScore), AllTimeLine(allTimeHigh);
      assert high[0] == 'Y' && allTime[0] == 'A' && Instructions[0] == 'U';
      [Instructions, allTime]
  }

  datatype Button = ContinuePlayingButton | ShowResultButton | CloseGameButton

  /** The buttons below the game: none while loading, otherwise Continue Playing,
      Show Result only after a game ended with a score, and Close Game. */
  function Buttons(isLoading: bool, gameScore: int): (r: seq<Button>)
    ensures isLoading <==> r == []
    ensures ShowResultButton in r <==> !isLoading && gameScore > 0
    ensures !isLoading ==> r[0] == ContinuePlayingButton && r[|r| - 1] == CloseGameButton
  {
    if isLoading then []
    else [ContinuePlayingButton] + (if gameScore > 0 then [ShowResultButton] else []) + [CloseGameButton]
  }
}
