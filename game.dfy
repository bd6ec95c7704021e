// The game state of js/game.js and the functions that change it: the
// module-level variables become the fields of one Game object, and each
// game-logic function becomes a method over them.
module FlappyGame {
  import opened Physics
  import opened Pipes

  /** The bird resetGame places a third of the way across and halfway down. */
  function InitialBird(canvasWidth: nat, canvasHeight: nat): Bird
  {
    Bird(canvasWidth as real / 3.0, canvasHeight as real / 2.0, BIRD_WIDTH, BIRD_HEIGHT, 0.0, 0, 0)
  }

  /** The ground resetGame lays along the bottom of the canvas. */
  function InitialGround(canvasHeight: nat): Ground
  {
    Ground(GroundTop(canvasHeight), GROUND_HEIGHT as real, 0.0)
  }

  /** The pair updatePipes spawns when the timer, with the elapsed time
      added, has reached PIPE_SPAWN_INTERVAL, and nothing otherwise. */
  function SpawnedPipes(canvasWidth: nat, canvasHeight: nat, timer: real, r: real): seq<Pipe>
    requires 0.0 <= r < 1.0
  {
    if timer >= PIPE_SPAWN_INTERVAL then [NewPipe(canvasWidth, canvasHeight, PipeHeight(canvasHeight, r))] else []
  }

  class Game {
    // the canvas; the resize handler that changes it is not modelled
    const canvasWidth: nat
    const canvasHeight: nat

    var bird: Bird
    var pipes: seq<Pipe>
    var ground: Ground
    var score: nat
    var phase: Phase
    var pipeSpawnTimer: real
    var bestScore: nat

    /** What holds between any two calls: the bird keeps its column and
        size and a valid animation frame, the ground sits at the bottom
        with its offset in range, and the pipe list is in shape. */
    ghost predicate Valid()
      reads this
    {
      bird.x == canvasWidth as real / 3.0 &&
      bird.width == BIRD_WIDTH && bird.height == BIRD_HEIGHT &&
      AnimationOk(bird) &&
      ground.y == GroundTop(canvasHeight) && ground.height == GROUND_HEIGHT as real &&
      GroundOffsetOk(ground.x, canvasWidth) &&
      PipesOk(pipes, canvasWidth, canvasHeight)
    }

    /** Once the game is over, the best score already covers the score. */
    ghost predicate BestCoversScore()
      reads this
    {
      phase == GameOver ==> score <= bestScore
    }

    /** The session state resetGame leaves. */
    ghost predicate IsReset()
      reads this
    {
      bird == InitialBird(canvasWidth, canvasHeight) &&
      pipes == [] &&
      ground == InitialGround(canvasHeight) &&
      score == 0 &&
      pipeSpawnTimer == 0.0
    }

    /** init, without the DOM and the image loading: the game starts on
        the start screen with the best score read from storage. */
    constructor (width: nat, height: nat, savedBest: nat)
      ensures canvasWidth == width && canvasHeight == height
      ensures Valid() && BestCoversScore() && IsReset()
      ensures phase == Start && bestScore == savedBest
    {
      canvasWidth, canvasHeight := width, height;
      phase := Start;
      bestScore := savedBest;
      bird := InitialBird(width, height);
      pipes := [];
      ground := InitialGround(height);
      score := 0;
      pipeSpawnTimer := 0.0;
    }

    /** resetGame: a fresh bird, no pipes, the ground unscrolled, score and
        spawn timer at zero; the phase and the best score are untouched. */
    method ResetGame()
      modifies this`bird, this`pipes, this`ground, this`score, this`pipeSpawnTimer
      ensures Valid() && IsReset()
    {
      bird := InitialBird(canvasWidth, canvasHeight);
      pipes := [];
      ground := InitialGround(canvasHeight);
      score := 0;
      pipeSpawnTimer := 0.0;
    }

    /** startGame: into the playing phase, with nothing reset. */
    method StartGame()
      modifies this`phase
      ensures phase == Playing
      ensures BestCoversScore()
    {
      phase := Playing;
    }

    /** restartGame: reset, then straight into the playing phase. */
    method RestartGame()
      modifies this`bird, this`pipes, this`ground, this`score, this`pipeSpawnTimer, this`phase
      ensures Valid() && IsReset() && BestCoversScore()
      ensures phase == Playing
      ensures LegalTransition(old(phase), phase)
    {
      ResetGame();
      phase := Playing;
    }

    /** gameOver: the game ends and the best score takes the score if it
        is higher. */
    method EndGame()
      modifies this`phase, this`bestScore
      ensures phase == GameOver
      ensures bestScore == Best(old(bestScore), score)
      ensures BestCoversScore()
    {
      phase := GameOver;
      if score > bestScore {
        bestScore := score;
      }
    }

    /** The best-score update at the start of drawBestScore. */
    method UpdateBestScore()
      modifies this`bestScore
      ensures bestScore == Best(old(bestScore), score)
    {
      if score > bestScore {
        bestScore := score;
      }
    }

    /** flapBird: the velocity becomes FLAP_POWER whatever it was. */
    method FlapBird()
      modifies this`bird
      ensures bird == old(bird).(velocity := FLAP_POWER)
    {
      bird := bird.(velocity := FLAP_POWER);
    }

    /** handleClick: a click starts the game from the start screen, flaps
        while playing, and does nothing once the game is over. */
    method HandleClick()
      requires Valid()
      modifies this`phase, this`bird
      ensures Valid()
      ensures LegalTransition(old(phase), phase)
      ensures old(phase) == Start ==> phase == Playing && bird == old(bird)
      ensures old(phase) == Playing ==> phase == Playing && bird == old(bird).(velocity := FLAP_POWER)
      ensures old(phase) == GameOver ==> phase == GameOver && bird == old(bird)
    {
      if phase == Start {
        StartGame();
      } else if phase == Playing {
        FlapBird();
      }
    }

    /** handleTouch: the same dispatch as a click. */
    method HandleTouch()
      requires Valid()
      modifies this`phase, this`bird
      ensures Valid()
      ensures LegalTransition(old(phase), phase)
      ensures old(phase) == Start ==> phase == Playing && bird == old(bird)
      ensures old(phase) == Playing ==> phase == Playing && bird == old(bird).(velocity := FLAP_POWER)
      ensures old(phase) == GameOver ==> phase == GameOver && bird == old(bird)
    {
      HandleClick();
    }

    /** A click on the play button: its own listener runs startGame, then
        the click bubbles to the document's handleClick, which now sees the
        playing phase and flaps. */
    method PressPlayButton()
      requires Valid()
      modifies this`phase, this`bird
      ensures Valid() && BestCoversScore()
      ensures LegalTransition(old(phase), phase) && phase == Playing
      ensures bird == old(bird).(velocity := FLAP_POWER)
    {
      StartGame();
      HandleClick();
    }

    /** A click on the restart button: restartGame, then the bubbled
        handleClick, so the fresh bird starts with a flap. */
    method PressRestartButton()
      modifies this`bird, this`pipes, this`ground, this`score, this`pipeSpawnTimer, this`phase
      ensures Valid() && BestCoversScore()
      ensures LegalTransition(old(phase), phase) && phase == Playing
      ensures bird == InitialBird(canvasWidth, canvasHeight).(velocity := FLAP_POWER)
      ensures pipes == [] && ground == InitialGround(canvasHeight)
      ensures score == 0 && pipeSpawnTimer == 0.0
    {
      RestartGame();
      HandleClick();
    }

    /** updateBird: one tick of gravity and clamping; the elapsed time is
        passed but not used. */
    method UpdateBird(deltaTime: real)
      requires Valid()
      modifies this`bird
      ensures Valid()
      ensures bird == Fall(old(bird), ground.y)
      ensures bird.y + bird.height <= ground.y
      ensures ground.y >= bird.height ==> bird.y >= 0.0
    {
      bird := bird.(velocity := bird.velocity + GRAVITY);
      bird := bird.(y := bird.y + bird.velocity);
      if bird.y < 0.0 {
        bird := bird.(y := 0.0, velocity := 0.0);
      }
      if bird.y + bird.height >= ground.y {
        bird := bird.(y := ground.y - bird.height, velocity := 0.0);
      }
    }

    /** generatePipe, with the value of Math.random passed in as r: a new
        pair at the right edge, appended after the existing pipes. */
    method GeneratePipe(r: real)
      requires 0.0 <= r < 1.0
      modifies this`pipes
      ensures pipes == old(pipes) + [NewPipe(canvasWidth, canvasHeight, PipeHeight(canvasHeight, r))]
    {
      var height := PipeHeight(canvasHeight, r);
      var pipe := Pipe(canvasWidth as real, PIPE_WIDTH, false,
                       Rect(0.0, (canvasHeight - GROUND_HEIGHT - PIPE_GAP - height) as real),
                       Rect((canvasHeight - GROUND_HEIGHT - height) as real, height as real));
      pipes := pipes + [pipe];
    }

    /** updatePipes: the elapsed time goes into the spawn timer; once it
        reaches PIPE_SPAWN_INTERVAL one pair is spawned and the timer drops
        back to 0 (any surplus is lost). Then every pipe moves left. */
    method UpdatePipes(deltaTime: real, r: real)
      requires Valid()
      requires 0.0 <= r < 1.0
      modifies this`pipes, this`pipeSpawnTimer
      ensures Valid()
      ensures pipeSpawnTimer == (if old(pipeSpawnTimer) + deltaTime >= PIPE_SPAWN_INTERVAL
                                 then 0.0 else old(pipeSpawnTimer) + deltaTime)
      ensures pipes == Advance(old(pipes) +
        SpawnedPipes(canvasWidth, canvasHeight, old(pipeSpawnTimer) + deltaTime, r))
    {
      pipeSpawnTimer := pipeSpawnTimer + deltaTime;
      ghost var spawned: seq<Pipe> := [];
      if pipeSpawnTimer >= PIPE_SPAWN_INTERVAL {
        GeneratePipe(r);
        spawned := [NewPipe(canvasWidth, canvasHeight, PipeHeight(canvasHeight, r))];
        pipeSpawnTimer := 0.0;
      }
      assert pipes == old(pipes) + spawned;
      MovePipes();
      AdvanceKeepsPipesOk(old(pipes), canvasWidth, canvasHeight, spawned);
    }

    /** The movement loop of updatePipes: each pipe moves left by
        PIPE_SPEED and, once fully off screen, is spliced out, the index
        stepping back so that the pipe sliding into its slot is still
        visited. */
    method MovePipes()
      modifies this`pipes
      ensures pipes == Advance(old(pipes))
    {
      var i := 0;
      ghost var k := 0;
      while i < |pipes|
        invariant 0 <= i <= |pipes| && 0 <= k <= |old(pipes)|
        invariant pipes[..i] == Advance(old(pipes)[..k])
        invariant pipes[i..] == old(pipes)[k..]
        decreases |pipes| - i
      {
        AdvanceStep(old(pipes), k);
        ghost var done := pipes[..i];
        ghost var rest := pipes[i + 1..];
        assert pipes[i] == old(pipes)[k] && rest == old(pipes)[k + 1..];
        pipes := pipes[i := pipes[i].(x := pipes[i].x - PIPE_SPEED)];
        assert pipes == done + [Shift(old(pipes)[k])] + rest;
        if pipes[i].x + pipes[i].width < 0.0 {
          pipes := pipes[..i] + pipes[i + 1..];
          assert pipes == done + rest;
          i := i - 1;
        }
        i := i + 1;
        k := k + 1;
      }
      assert old(pipes)[k..] == [];
      assert old(pipes)[..k] == old(pipes);
    }

    /** checkCollisions: the ground first (snapping the bird onto it), then
        each pipe in turn; the first hit ends the game. */
    method CheckCollisions()
      requires Valid()
      modifies this`bird, this`phase, this`bestScore
      ensures Valid()
      ensures GroundHit(old(bird), ground.y) ==>
        bird == old(bird).(y := ground.y - old(bird).height)
      ensures !GroundHit(old(bird), ground.y) ==> bird == old(bird)
      ensures Collides(old(bird), ground.y, pipes) ==>
        phase == GameOver && bestScore == Best(old(bestScore), score)
      ensures !Collides(old(bird), ground.y, pipes) ==>
        phase == old(phase) && bestScore == old(bestScore)
    {
      if bird.y + bird.height >= ground.y {
        bird := bird.(y := ground.y - bird.height);
        EndGame();
        return;
      }
      for i := 0 to |pipes|
        invariant forall j :: 0 <= j < i ==> !PipeHit(bird, pipes[j])
      {
        var pipe := pipes[i];
        if bird.x + bird.width > pipe.x && bird.x < pipe.x + pipe.width {
          if bird.y < pipe.top.y + pipe.top.height {
            EndGame();
            return;
          }
          if bird.y + bird.height > pipe.bottom.y {
            EndGame();
            return;
          }
        }
      }
    }

    /** updateScore: every pipe the bird has just cleared is flagged and
        scores one point. */
    method UpdateScore()
      modifies this`pipes, this`score
      ensures pipes == ScoreAll(bird.x, old(pipes))
      ensures score == old(score) + NewlyPassed(bird.x, old(pipes))
    {
      ghost var target := ScoreAll(bird.x, pipes);
      for i := 0 to |pipes|
        invariant |pipes| == |old(pipes)|
        invariant forall j :: 0 <= j < i ==> pipes[j] == target[j]
        invariant forall j :: i <= j < |pipes| ==> pipes[j] == old(pipes)[j]
        invariant score == old(score) + NewlyPassed(bird.x, old(pipes)[..i])
      {
        assert old(pipes)[..i + 1][..i] == old(pipes)[..i];
        if !pipes[i].scored && bird.x > pipes[i].x + pipes[i].width {
          pipes := pipes[i := pipes[i].(scored := true)];
          score := score + 1;
        }
      }
      assert old(pipes)[..|pipes|] == old(pipes);
    }

    /** updateGround: scroll the ground left, wrapping after a canvas width. */
    method UpdateGround()
      modifies this`ground
      ensures ground == old(ground).(x := Scroll(old(ground).x, canvasWidth))
    {
      ground := ground.(x := ground.x - PIPE_SPEED);
      if ground.x <= -(canvasWidth as real) {
        ground := ground.(x := 0.0);
      }
    }

    /** updateBirdAnimation: the wing frame advances only while playing. */
    method UpdateBirdAnimation()
      modifies this`bird
      ensures bird == if phase == Playing then Animate(old(bird)) else old(bird)
    {
      if phase == Playing {
        bird := bird.(frameCounter := bird.frameCounter + 1);
        if bird.frameCounter >= ANIMATION_SPEED {
          bird := bird.(frame := (bird.frame + 1) % BIRD_FRAMES, frameCounter := 0);
        }
      }
    }

    /** The first half of the 'playing' branch of gameLoop: the bird
        falls, the pipes spawn and move, and the ground scrolls. */
    method MoveWorld(deltaTime: real, r: real)
      requires Valid()
      requires 0.0 <= r < 1.0
      modifies this`bird, this`pipes, this`ground, this`pipeSpawnTimer
      ensures Valid()
      ensures pipeSpawnTimer == (if old(pipeSpawnTimer) + deltaTime >= PIPE_SPAWN_INTERVAL
                                 then 0.0 else old(pipeSpawnTimer) + deltaTime)
      ensures ground == old(ground).(x := Scroll(old(ground).x, canvasWidth))
      ensures bird == Fall(old(bird), ground.y)
      ensures pipes == Advance(old(pipes) +
        SpawnedPipes(canvasWidth, canvasHeight, old(pipeSpawnTimer) + deltaTime, r))
    {
      UpdateBird(deltaTime);
      UpdatePipes(deltaTime, r);
      UpdateGround();
    }

    /** The second half of the 'playing' branch of gameLoop: the collision
        test may end the game, and scoring still runs after it, on the tick
        the game ends too. */
    method ResolveTick()
      requires Valid() && phase == Playing
      modifies this`bird, this`pipes, this`score, this`phase, this`bestScore
      ensures Valid()
      ensures GroundHit(old(bird), ground.y) ==>
        bird == old(bird).(y := ground.y - old(bird).height)
      ensures !GroundHit(old(bird), ground.y) ==> bird == old(bird)
      ensures phase == GameOver <==> Collides(old(bird), ground.y, old(pipes))
      ensures phase == GameOver || phase == Playing
      ensures pipes == ScoreAll(bird.x, old(pipes))
      ensures score == old(score) + NewlyPassed(bird.x, old(pipes))
      // gameOver runs before updateScore: the best score it records
      // misses a point scored on this same tick
      ensures phase == GameOver ==> bestScore == Best(old(bestScore), old(score))
      ensures phase == Playing ==> bestScore == old(bestScore)
    {
      CheckCollisions();
      UpdateScore();
    }

    /** The whole 'playing' branch of gameLoop. */
    method PlayingTick(deltaTime: real, r: real)
      requires Valid() && phase == Playing
      requires 0.0 <= r < 1.0
      modifies this`bird, this`pipes, this`ground, this`score, this`phase, this`pipeSpawnTimer, this`bestScore
      ensures Valid()
      ensures pipeSpawnTimer == (if old(pipeSpawnTimer) + deltaTime >= PIPE_SPAWN_INTERVAL
                                 then 0.0 else old(pipeSpawnTimer) + deltaTime)
      ensures ground == old(ground).(x := Scroll(old(ground).x, canvasWidth))
      ensures bird == Fall(old(bird), ground.y)
      ensures var moved := Advance(old(pipes) + SpawnedPipes(canvasWidth, canvasHeight, old(pipeSpawnTimer) + deltaTime, r));
        (phase == GameOver <==> Collides(bird, ground.y, moved)) &&
        (phase == GameOver || phase == Playing) &&
        pipes == ScoreAll(bird.x, moved) &&
        score == old(score) + NewlyPassed(bird.x, moved)
      ensures phase == GameOver ==> bestScore == Best(old(bestScore), old(score))
      ensures phase == Playing ==> bestScore == old(bestScore)
    {
      MoveWorld(deltaTime, r);
      ghost var fallen := bird;
      ResolveTick();
      // the fallen bird already rests on or above the ground, so the
      // ground snap of checkCollisions leaves it where it is
      assert bird == fallen;
    }

    /** One frame of gameLoop, with the elapsed time and the value of
        Math.random passed in: the playing branch, then the animation, and
        the best-score update of drawBestScore once the game is over, which
        catches a point scored on the tick the game ended. */
    method GameLoop(deltaTime: real, r: real)
      requires Valid()
      requires 0.0 <= r < 1.0
      modifies this`bird, this`pipes, this`ground, this`score, this`phase, this`pipeSpawnTimer, this`bestScore
      ensures Valid() && BestCoversScore()
      ensures LegalTransition(old(phase), phase)
      ensures old(phase) != Playing ==>
        phase == old(phase) && bird == old(bird) && pipes == old(pipes) &&
        ground == old(ground) && score == old(score) && pipeSpawnTimer == old(pipeSpawnTimer)
      ensures old(phase) == Playing ==>
        pipeSpawnTimer == (if old(pipeSpawnTimer) + deltaTime >= PIPE_SPAWN_INTERVAL
                           then 0.0 else old(pipeSpawnTimer) + deltaTime) &&
        ground == old(ground).(x := Scroll(old(ground).x, canvasWidth))
      ensures old(phase) == Playing ==>
        var fallen := Fall(old(bird), ground.y);
        var moved := Advance(old(pipes) + SpawnedPipes(canvasWidth, canvasHeight, old(pipeSpawnTimer) + deltaTime, r));
        (phase == GameOver <==> Collides(fallen, ground.y, moved)) &&
        pipes == ScoreAll(fallen.x, moved) &&
        score == old(score) + NewlyPassed(fallen.x, moved) &&
        bird == (if phase == Playing then Animate(fallen) else fallen)
      ensures old(phase) == Playing ==>
        bird.y + bird.height <= ground.y && (ground.y >= bird.height ==> bird.y >= 0.0)
      ensures phase == GameOver ==> bestScore == Best(old(bestScore), score)
      ensures phase != GameOver ==> bestScore == old(bestScore)
    {
      if phase == Playing {
        PlayingTick(deltaTime, r);
      }
      UpdateBirdAnimation();
      if phase == GameOver {
        UpdateBestScore();
      }
    }
  }
}
