/**
 * The waiting-room car game (CarGame.tsx): five road lines and three enemy
 * cars scroll down by the player's speed each animation frame, the player's
 * car moves within the road, the score counts frames, and a collision ends
 * the game and records a new high score.
 */
module CarGame {
  import opened Common

  /** `playerRef.current.speed`. */
  const Speed: int := 5

  const LineCount: nat := 5
  const EnemyCount: nat := 3

  /** A `getBoundingClientRect()` box. */
  datatype Rect = Rect(left: int, top: int, right: int, bottom: int)

  /** isCollide: the boxes overlap unless one lies strictly beyond the other on
      some side. */
  predicate Collide(car: Rect, enemy: Rect)
    ensures Collide(car, enemy) ==> car.top <= enemy.bottom && enemy.top <= car.bottom
    ensures car == enemy && car.left <= car.right && car.top <= car.bottom ==> Collide(car, enemy)
  {
    !(car.top > enemy.bottom || car.left > enemy.right || car.right < enemy.left || car.bottom < enemy.top)
  }

  /** Overlap is symmetric, and boxes that only touch along an edge collide. */
  lemma CollideSymmetric(a: Rect, b: Rect)
    ensures Collide(a, b) <==> Collide(b, a)
    ensures a.left <= a.right && a.top <= a.bottom && b.left <= b.right && b.top <= b.bottom ==>
      (Collide(a, b) <==> a.left <= b.right && b.left <= a.right && a.top <= b.bottom && b.top <= a.bottom)
    ensures b.left <= b.right && b.top <= b.bottom && a.left <= b.left <= a.right && a.top <= b.top <= a.bottom ==>
      Collide(a, b)
  {
  }

  /** The CSS sizes of the player's car and of an enemy car. */
  datatype Sizes = Sizes(carWidth: nat, carHeight: nat, enemyWidth: nat, enemyHeight: nat)

  function CarRect(s: Sizes, x: int, y: int): Rect {
    Rect(x, y, x + s.carWidth, y + s.carHeight)
  }

  function EnemyRect(s: Sizes, left: int, y: int): Rect {
    Rect(left, y, left + s.enemyWidth, y + s.enemyHeight)
  }

  // ---------------------------------------------------------------------------
  // Road lines

  /** moveLines for one line: a line at 700 or below is lifted by 750, then every
      line moves down by the speed. */
  function LineStep(y: int): (r: int)
    ensures r == y + Speed || r == y + Speed - 750
    ensures r < y <==> y >= 700
  {
    (if y >= 700 then y - 750 else y) + Speed
  }

  function LinesStep(ys: seq<int>): (r: seq<int>)
    ensures |r| == |ys| && forall i :: 0 <= i < |ys| ==> r[i] == LineStep(ys[i])
  {
    seq(|ys|, i requires 0 <= i < |ys| => LineStep(ys[i]))
  }

  /** Lines that start on the road (0, 150, ..., 600) stay in the band [-45, 705)
      for ever: every step keeps that band. */
  lemma LineStaysInBand(y: int)
    requires -45 <= y < 705
    ensures -45 <= LineStep(y) < 705
  {
  }

  /** The lines after `n` frames. */
  function LinesAfter(ys: seq<int>, n: nat): seq<int> {
    if n == 0 then ys else LinesStep(LinesAfter(ys, n - 1))
  }

  lemma {:induction false} LinesStayInBand(ys: seq<int>, n: nat)
    requires forall i :: 0 <= i < |ys| ==> -45 <= ys[i] < 705
    ensures |LinesAfter(ys, n)| == |ys|
    ensures forall i :: 0 <= i < |ys| ==> -45 <= LinesAfter(ys, n)[i] < 705
  {
    if n > 0 {
      LinesStayInBand(ys, n - 1);
    }
  }

  // ---------------------------------------------------------------------------
  // Enemy cars

  /** moveEnemyCar for one enemy: a colliding enemy stays put; otherwise one at
      750 or below reappears at -300 and every enemy moves down by the speed. */
  function EnemyNextY(s: Sizes, car: Rect, left: int, y: int): (r: int)
    ensures Collide(car, EnemyRect(s, left, y)) ==> r == y
    ensures r == y || r == y + Speed || r == -300 + Speed
    ensures r < y ==> y >= 750
  {
    if Collide(car, EnemyRect(s, left, y)) then y
    else (if y >= 750 then -300 else y) + Speed
  }

  /** An enemy that reappears takes the fresh random column `newLeft`. */
  function EnemyNextX(s: Sizes, car: Rect, left: int, y: int, newLeft: int): (r: int)
    ensures r != left ==> r == newLeft && y >= 750 && !Collide(car, EnemyRect(s, left, y))
  {
    if Collide(car, EnemyRect(s, left, y)) then left
    else if y >= 750 then newLeft else left
  }

  /** A moving enemy stays in the band [-1050, 755) that the starting positions
      -350, -700 and -1050 lie in. */
  lemma EnemyStaysInBand(s: Sizes, car: Rect, left: int, y: int)
    requires -1050 <= y < 755
    ensures -1050 <= EnemyNextY(s, car, left, y) < 755
  {
  }

  /** How many of the first `n` enemies collide with the car. */
  function Collisions(s: Sizes, car: Rect, xs: seq<int>, ys: seq<int>, n: nat): nat
    requires n <= |xs| && n <= |ys|
  {
    if n == 0 then 0
    else Collisions(s, car, xs, ys, n - 1) + (if Collide(car, EnemyRect(s, xs[n - 1], ys[n - 1])) then 1 else 0)
  }

  // ---------------------------------------------------------------------------
  // The player's car

  datatype Keys = Keys(up: bool, down: bool, left: bool, right: bool)

  /** The game area's box: its top, bottom and width. */
  datatype Road = Road(top: int, bottom: int, width: int)

  function MoveY(y: int, keys: Keys, road: Road): int {
    var y1 := if keys.up && y > road.top + 150 then y - Speed else y;
    if keys.down && y1 < road.bottom - 80 then y1 + Speed else y1
  }

  function MoveX(x: int, keys: Keys, road: Road): int {
    var x1 := if keys.left && x > 0 then x - Speed else x;
    if keys.right && x1 < road.width - 70 then x1 + Speed else x1
  }

  /** Each arrow moves the car by the speed only while the car is inside that
      arrow's bound: the car never moves left from x <= 0, never right from
      x >= width - 70, never up from y <= top + 150, never down from y >= bottom - 80
      (unless the opposite arrow first brought it back inside), and a frame moves
      it by at most the speed on each axis. */
  lemma MovementBounds(x: int, y: int, keys: Keys, road: Road)
    ensures var nx := MoveX(x, keys, road);
      var ny := MoveY(y, keys, road);
      && x - Speed <= nx <= x + Speed
      && y - Speed <= ny <= y + Speed
      && (!keys.left && !keys.right ==> nx == x)
      && (!keys.up && !keys.down ==> ny == y)
      && (keys.left && !keys.right ==> (nx == x - Speed <==> x > 0) && (nx == x <==> x <= 0))
      && (keys.right && !keys.left ==> (nx == x + Speed <==> x < road.width - 70) && (nx == x <==> x >= road.width - 70))
      && (keys.up && !keys.down ==> (ny == y - Speed <==> y > road.top + 150) && (ny == y <==> y <= road.top + 150))
      && (keys.down && !keys.up ==> (ny == y + Speed <==> y < road.bottom - 80) && (ny == y <==> y >= road.bottom - 80))
  {
  }

  // ---------------------------------------------------------------------------
  // The game

  /** What the game reports to the outside. */
  datatype GameEvent =
    | SaveHighScore(score: int)   // localStorage write plus the API request
    | GameEnded(score: int)        // the `onGameEnd` callback
    | ContinuePlaying              // the `onContinuePlaying` callback

  /** What one call of endGame reports at once: a new high score is saved (and the
      callback waits for the save); otherwise the callback runs straight away when
      the game is not loading and a callback was given. */
  function EndEvents(score: int, sessionHigh: int, loading: bool, hasCallback: bool): seq<GameEvent> {
    if score > sessionHigh then [SaveHighScore(score)]
    else if !loading && hasCallback then [GameEnded(score)]
    else []
  }

  /** `k` copies of `s`. */
  function Repeat<T>(s: seq<T>, k: nat): (r: seq<T>)
    ensures |r| == k * |s|
  {
    if k == 0 then [] else Repeat(s, k - 1) + s
  }

  /** The part of the game state that endGame changes. */
  datatype EndState = EndState(
    start: bool, isPlaying: bool, highScore: int, storedHighScore: Option<int>,
    pendingEnds: nat, events: seq<GameEvent>, showEndGamePrompt: bool)

  /** One call of endGame, up to its `await`: stop the game; a score above the high
      score the session started with becomes the high score, is stored and saved,
      and the callback waits for the save; otherwise the callback runs at once when
      the game is not loading and has one, and the end prompt shows when it does not. */
  function AfterEnd(s: EndState, score: int, sessionHigh: int, loading: bool, hasCallback: bool): EndState {
    var s1 := s.(start := false, isPlaying := false, events := s.events + EndEvents(score, sessionHigh, loading, hasCallback));
    if score > sessionHigh then
      s1.(highScore := score, storedHighScore := Some(score), pendingEnds := s.pendingEnds + 1)
    else if !loading && hasCallback then s1
    else s1.(showEndGamePrompt := true)
  }

  /** `k` calls of endGame in one frame. */
  function AfterEnds(s: EndState, k: nat, score: int, sessionHigh: int, loading: bool, hasCallback: bool): EndState {
    if k == 0 then s else AfterEnd(AfterEnds(s, k - 1, score, sessionHigh, loading, hasCallback), score, sessionHigh, loading, hasCallback)
  }

  /** What `k` collisions in one frame amount to: the game stops once any happened;
      a new high score is saved once per collision and each save holds back one
      callback; otherwise each collision reports the score at once (or shows the
      prompt), and the high score is never lowered. */
  lemma {:induction false} AfterEndsEffect(s: EndState, k: nat, score: int, sessionHigh: int, loading: bool, hasCallback: bool)
    ensures var r := AfterEnds(s, k, score, sessionHigh, loading, hasCallback);
      && r.events == s.events + Repeat(EndEvents(score, sessionHigh, loading, hasCallback), k)
      && (k == 0 ==> r == s)
      && (k > 0 ==> !r.start && !r.isPlaying)
      && r.pendingEnds == s.pendingEnds + (if score > sessionHigh then k else 0)
      && (k > 0 && score > sessionHigh ==>
            r.highScore == score && r.storedHighScore == Some(score) && r.showEndGamePrompt == s.showEndGamePrompt)
      && (score <= sessionHigh ==> r.highScore == s.highScore && r.storedHighScore == s.storedHighScore)
      && (k > 0 && score <= sessionHigh ==> r.showEndGamePrompt == (s.showEndGamePrompt || loading || !hasCallback))
  {
    if k > 0 {
      AfterEndsEffect(s, k - 1, score, sessionHigh, loading, hasCallback);
      var ev := EndEvents(score, sessionHigh, loading, hasCallback);
      assert Repeat(ev, k) == Repeat(ev, k - 1) + ev;
    }
  }

  /** The game state: the player (`playerRef`), the lines' and enemies' positions,
      the part of the state endGame changes (`state`: the running flags, the high
      score in state and in localStorage, the events reported, the end prompt and
      the number of endGame calls still waiting for their high-score save), and the
      values the running session's closures captured when it was started: the high
      score, the `isLoading` prop and whether an `onGameEnd` callback was given. */
  class Game {
    const sizes: Sizes
    const lineY: array<int>
    const enemyY: array<int>
    const enemyX: array<int>
    var x: int
    var y: int
    var score: int
    var state: EndState
    var sessionHighScore: int
    var sessionLoading: bool
    var sessionHasCallback: bool

    ghost predicate Valid() {
      && lineY.Length == LineCount
      && enemyY.Length == EnemyCount
      && enemyX.Length == EnemyCount
      && lineY != enemyY && lineY != enemyX && enemyY != enemyX
    }

    /** Mounting: the high score is `parseInt(localStorage value || '0')`. */
    constructor (sizes: Sizes, stored: Option<int>)
      ensures Valid() && fresh(lineY) && fresh(enemyY) && fresh(enemyX)
      ensures this.sizes == sizes && score == 0
      ensures state == EndState(false, false, stored.GetOr(0), stored, 0, [], false)
    {
      this.sizes := sizes;
      lineY := new int[LineCount];
      enemyY := new int[EnemyCount];
      enemyX := new int[EnemyCount];
      x, y, score := 0, 0, 0;
      state := EndState(false, false, stored.GetOr(0), stored, 0, [], false);
      sessionHighScore := 0;
      sessionLoading, sessionHasCallback := false, false;
    }

    /** startGame: five lines at 0, 150, ..., 600, the car at its layout position,
        three enemies at -350, -700, -1050 in the given random columns; score 0. */
    method StartGame(carLeft: int, carTop: int, lefts: seq<int>, isLoading: bool, hasCallback: bool)
      requires Valid()
      requires |lefts| == EnemyCount
      modifies this, lineY, enemyY, enemyX
      ensures forall i :: 0 <= i < LineCount ==> lineY[i] == 150 * i
      ensures forall i :: 0 <= i < EnemyCount ==> enemyY[i] == -350 * (i + 1) && enemyX[i] == lefts[i]
      ensures state == old(state).(start := true, isPlaying := true, showEndGamePrompt := false)
      ensures score == 0 && x == carLeft && y == carTop
      ensures sessionHighScore == state.highScore && sessionLoading == isLoading && sessionHasCallback == hasCallback
    {
      for i := 0 to LineCount
        modifies lineY
        invariant forall j :: 0 <= j < i ==> lineY[j] == 150 * j
      {
        lineY[i] := i * 150;
      }
      for i := 0 to EnemyCount
        modifies enemyY, enemyX
        invariant forall j :: 0 <= j < i ==> enemyY[j] == -350 * (j + 1) && enemyX[j] == lefts[j]
      {
        enemyY[i] := (i + 1) * 350 * -1;
        enemyX[i] := lefts[i];
      }
      state := state.(isPlaying := true, showEndGamePrompt := false, start := true);
      score := 0;
      x, y := carLeft, carTop;
      sessionHighScore := state.highScore;
      sessionLoading := isLoading;
      sessionHasCallback := hasCallback;
    }

    /** moveLines. */
    method MoveLines()
      requires Valid()
      modifies lineY
      ensures lineY[..] == LinesStep(old(lineY[..]))
    {
      for i := 0 to lineY.Length
        invariant forall j :: 0 <= j < i ==> lineY[j] == LineStep(old(lineY[j]))
        invariant forall j :: i <= j < lineY.Length ==> lineY[j] == old(lineY[j])
      {
        var lineYi := lineY[i];
        if lineYi >= 700 {
          lineYi := lineYi - 750;
        }
        lineYi := lineYi + Speed;
        lineY[i] := lineYi;
      }
    }

    /** endGame, up to its `await`: stop the game; a score above the high score the
        session started with becomes the high score, is stored and saved, and the
        callback waits for the save; otherwise the callback runs at once when the
        game is not loading and has one, and the end prompt shows when it does not. */
    method EndGame()
      modifies `state
      ensures state == AfterEnd(old(state), score, sessionHighScore, sessionLoading, sessionHasCallback)
    {
      state := state.(start := false, isPlaying := false);
      if score > sessionHighScore {
        state := state.(highScore := score, storedHighScore := Some(score),
          events := state.events + [SaveHighScore(score)], pendingEnds := state.pendingEnds + 1);
      } else if !sessionLoading && sessionHasCallback {
        state := state.(events := state.events + [GameEnded(score)]);
      } else {
        state := state.(showEndGamePrompt := true);
      }
    }

    /** One enemy of moveEnemyCar's forEach: on a collision endGame runs and the enemy
        stays put (the `return` only ends this enemy's turn); otherwise it scrolls,
        moving to the column `newLeft` when it wraps around. */
    method MoveEnemy(i: nat, car: Rect, newLeft: int)
      requires Valid() && i < EnemyCount
      modifies `state, enemyY, enemyX
      ensures enemyY[i] == EnemyNextY(sizes, car, old(enemyX[i]), old(enemyY[i]))
      ensures enemyX[i] == EnemyNextX(sizes, car, old(enemyX[i]), old(enemyY[i]), newLeft)
      ensures forall j :: 0 <= j < EnemyCount && j != i ==> enemyY[j] == old(enemyY[j]) && enemyX[j] == old(enemyX[j])
      ensures state ==
        if Collide(car, EnemyRect(sizes, old(enemyX[i]), old(enemyY[i])))
        then AfterEnd(old(state), score, sessionHighScore, sessionLoading, sessionHasCallback)
        else old(state)
    {
      if Collide(car, EnemyRect(sizes, enemyX[i], enemyY[i])) {
        EndGame();
        return;
      }
      var enemyYi := enemyY[i];
      if enemyYi >= 750 {
        enemyYi := -300;
        enemyX[i] := newLeft;
      }
      enemyYi := enemyYi + Speed;
      enemyY[i] := enemyYi;
    }

    /** moveEnemyCar: every enemy that collides with the car calls endGame and stays
        put; the others scroll (and reappear in a fresh column after leaving the
        road). Several collisions in one frame call endGame several times. */
    method MoveEnemies(respawn: seq<int>)
      requires Valid()
      requires |respawn| == EnemyCount
      modifies `state, enemyY, enemyX
      ensures var car := CarRect(sizes, x, y);
        forall i :: 0 <= i < EnemyCount ==>
          && enemyY[i] == EnemyNextY(sizes, car, old(enemyX[i]), old(enemyY[i]))
          && enemyX[i] == EnemyNextX(sizes, car, old(enemyX[i]), old(enemyY[i]), respawn[i])
      ensures state == AfterEnds(old(state), Collisions(sizes, CarRect(sizes, x, y), old(enemyX[..]), old(enemyY[..]), EnemyCount),
        score, sessionHighScore, sessionLoading, sessionHasCallback)
    {
      var car := CarRect(sizes, x, y);
      ghost var xs := enemyX[..];
      ghost var ys := enemyY[..];
      ghost var s0 := state;
      for i := 0 to EnemyCount
        modifies `state, enemyY, enemyX
        invariant forall j :: 0 <= j < i ==>
          enemyY[j] == EnemyNextY(sizes, car, xs[j], ys[j]) && enemyX[j] == EnemyNextX(sizes, car, xs[j], ys[j], respawn[j])
        invariant forall j :: i <= j < EnemyCount ==> enemyY[j] == ys[j] && enemyX[j] == xs[j]
        invariant state == AfterEnds(s0, Collisions(sizes, car, xs, ys, i), score, sessionHighScore, sessionLoading, sessionHasCallback)
      {
        ghost var hit := Collide(car, EnemyRect(sizes, xs[i], ys[i]));
        ghost var n := Collisions(sizes, car, xs, ys, i);
        assert Collisions(sizes, car, xs, ys, i + 1) == n + (if hit then 1 else 0);
        if hit {
          assert AfterEnds(s0, n + 1, score, sessionHighScore, sessionLoading, sessionHasCallback)
            == AfterEnd(state, score, sessionHighScore, sessionLoading, sessionHasCallback);
        }
        MoveEnemy(i, car, respawn[i]);
      }
    }

    /** gamePlay: nothing once the game has stopped; otherwise move the lines and
        the enemies, move the car within the road, and count the frame. The score
        counts the frame even when an enemy hit the car in it. */
    method Tick(keys: Keys, road: Road, respawn: seq<int>)
      requires Valid()
      requires |respawn| == EnemyCount
      modifies `state, `x, `y, `score, lineY, enemyY, enemyX
      ensures !old(state.start) ==>
        && lineY[..] == old(lineY[..]) && enemyY[..] == old(enemyY[..]) && enemyX[..] == old(enemyX[..])
        && x == old(x) && y == old(y) && score == old(score) && state == old(state)
      ensures old(state.start) ==>
        var car := CarRect(sizes, old(x), old(y));
        var hits := Collisions(sizes, car, old(enemyX[..]), old(enemyY[..]), EnemyCount);
        && lineY[..] == LinesStep(old(lineY[..]))
        && (forall i :: 0 <= i < EnemyCount ==>
              && enemyY[i] == EnemyNextY(sizes, car, old(enemyX[i]), old(enemyY[i]))
              && enemyX[i] == EnemyNextX(sizes, car, old(enemyX[i]), old(enemyY[i]), respawn[i]))
        && state == AfterEnds(old(state), hits, old(score), sessionHighScore, sessionLoading, sessionHasCallback)
        && (state.start <==> hits == 0)
        && x == MoveX(old(x), keys, road) && y == MoveY(old(y), keys, road)
        && score == old(score) + 1
    {
      if !state.start {
        return;
      }
      MoveLines();
      MoveEnemies(respawn);
      AfterEndsEffect(old(state), Collisions(sizes, CarRect(sizes, x, y), old(enemyX[..]), old(enemyY[..]), EnemyCount),
        score, sessionHighScore, sessionLoading, sessionHasCallback);
      y := MoveY(y, keys, road);
      x := MoveX(x, keys, road);
      score := score + 1;
    }

    /** The high-score save awaited by an endGame call settled: that call now runs
        the callback with the score as it is now (already counted up by the frame
        that ended the game), or shows the end prompt. */
    method SaveSettled()
      modifies `state
      ensures old(state.pendingEnds) == 0 ==> state == old(state)
      ensures old(state.pendingEnds) > 0 && !sessionLoading && sessionHasCallback ==>
        state == old(state).(pendingEnds := old(state.pendingEnds) - 1, events := old(state.events) + [GameEnded(score)])
      ensures old(state.pendingEnds) > 0 && !(!sessionLoading && sessionHasCallback) ==>
        state == old(state).(pendingEnds := old(state.pendingEnds) - 1, showEndGamePrompt := true)
    {
      if state.pendingEnds == 0 {
        return;
      }
      state := state.(pendingEnds := state.pendingEnds - 1);
      if !sessionLoading && sessionHasCallback {
        state := state.(events := state.events + [GameEnded(score)]);
      } else {
        state := state.(showEndGamePrompt := true);
      }
    }

    /** The effect on the loading flag: a game in progress with a score while the
        work is no longer loading shows the end prompt, but only when the game has
        neither a continue nor an end callback. */
    method LoadingEffect(isLoading: bool, hasContinue: bool, hasCallback: bool)
      modifies `state
      ensures state == old(state).(showEndGamePrompt :=
        old(state.showEndGamePrompt) || (!isLoading && state.isPlaying && score > 0 && !hasContinue && !hasCallback))
    {
      if !isLoading && state.isPlaying && score > 0 {
        if !hasContinue && !hasCallback {
          state := state.(showEndGamePrompt := true);
        }
      }
    }

    /** handleEndGame: hide the prompt and report the score if there is a callback. */
    method EndFromPrompt(hasCallback: bool)
      modifies `state
      ensures state == old(state).(showEndGamePrompt := false,
        events := old(state.events) + (if hasCallback then [GameEnded(score)] else []))
    {
      state := state.(showEndGamePrompt := false);
      if hasCallback {
        state := state.(events := state.events + [GameEnded(score)]);
      }
    }

    /** handleContinuePlaying: hide the prompt, tell the parent, and start again. */
    method ContinueFromPrompt(hasContinue: bool, carLeft: int, carTop: int, lefts: seq<int>, isLoading: bool, hasCallback: bool)
      requires Valid()
      requires |lefts| == EnemyCount
      modifies this, lineY, enemyY, enemyX
      ensures state == old(state).(start := true, isPlaying := true, showEndGamePrompt := false,
        events := old(state.events) + (if hasContinue then [ContinuePlaying] else []))
      ensures forall i :: 0 <= i < LineCount ==> lineY[i] == 150 * i
      ensures forall i :: 0 <= i < EnemyCount ==> enemyY[i] == -350 * (i + 1) && enemyX[i] == lefts[i]
      ensures score == 0 && x == carLeft && y == carTop && sessionHighScore == state.highScore
      ensures sessionLoading == isLoading && sessionHasCallback == hasCallback
    {
      state := state.(showEndGamePrompt := false);
      if hasContinue {
        state := state.(events := state.events + [ContinuePlaying]);
      }
      StartGame(carLeft, carTop, lefts, isLoading, hasCallback);
    }
  }

  /** A new high score is only ever the current score above the session's starting
      high score: the recorded high score never decreases within a session. */
  lemma EndEventsSaveOnlyAbove(score: int, sessionHigh: int, loading: bool, hasCallback: bool)
    ensures SaveHighScore(score) in EndEvents(score, sessionHigh, loading, hasCallback) <==> score > sessionHigh
    ensures GameEnded(score) in EndEvents(score, sessionHigh, loading, hasCallback) <==>
      score <= sessionHigh && !loading && hasCallback
  {
  }
}
