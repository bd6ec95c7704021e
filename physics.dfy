// Constants, the bird and ground records, and the per-tick rules of
// js/game.js that touch only one of them: gravity and clamping
// (updateBird), the wing animation (updateBirdAnimation), ground scrolling (updateGround) and the
// running maximum behind the best score (gameOver, drawBestScore).
module Physics {

  const GRAVITY: real := 0.5
  const FLAP_POWER: real := -8.0
  const PIPE_SPEED: real := 2.0
  const PIPE_SPAWN_INTERVAL: real := 1500.0
  const PIPE_GAP: int := 150
  const GROUND_HEIGHT: int := 80
  const BIRD_FRAMES: nat := 3
  const ANIMATION_SPEED: nat := 5
  const BIRD_WIDTH: real := 34.0
  const BIRD_HEIGHT: real := 24.0

  /** The session phase: the string tag 'start' | 'playing' | 'gameOver'. */
  datatype Phase = Start | Playing | GameOver

  /** The phase changes the game allows: staying put, start -> playing,
      playing -> game over, and game over -> playing (restart). */
  predicate LegalTransition(from: Phase, to: Phase)
  {
    from == to ||
    (from == Start && to == Playing) ||
    (from == Playing && to == GameOver) ||
    (from == GameOver && to == Playing)
  }

  /** The bird object, without its cosmetic rotation. */
  datatype Bird = Bird(
    x: real, y: real, width: real, height: real,
    velocity: real, frame: nat, frameCounter: nat)

  /** The ground band: top edge y, its height, and the scroll offset x. */
  datatype Ground = Ground(y: real, height: real, x: real)

  /** One updateBird step: gravity is added once per tick (the elapsed
      time is not used), the bird moves by its new velocity, and it is
      clamped first to the top of the screen and then to the ground,
      each clamp stopping it. */
  function Fall(b: Bird, groundY: real): (r: Bird)
    // only the position and the velocity move
    ensures r == b.(y := r.y, velocity := r.velocity)
    // never below the ground; never above the screen when the bird fits
    ensures r.y + r.height <= groundY
    ensures groundY >= b.height ==> r.y >= 0.0
    // no clamp: plain integration of one tick
    ensures var y' := b.y + b.velocity + GRAVITY;
      0.0 <= y' && y' + b.height < groundY ==>
        r.y == y' && r.velocity == b.velocity + GRAVITY
    // a clamp: the bird rests on one of the bounds with zero velocity
    ensures var y' := b.y + b.velocity + GRAVITY;
      y' < 0.0 || y' + b.height >= groundY ==>
        r.velocity == 0.0 && (r.y == 0.0 || r.y == groundY - b.height)
    // which bound: the ground clamp, checked last, wins; the top clamp
    // holds only when the ground leaves room for the bird
    ensures var y' := b.y + b.velocity + GRAVITY;
      y' + b.height >= groundY ==> r.y == groundY - b.height
    ensures var y' := b.y + b.velocity + GRAVITY;
      y' < 0.0 && b.height < groundY ==> r.y == 0.0
  {
    var v := b.velocity + GRAVITY;
    var y := b.y + v;
    var top := if y < 0.0 then b.(y := 0.0, velocity := 0.0) else b.(y := y, velocity := v);
    if top.y + top.height >= groundY then top.(y := groundY - top.height, velocity := 0.0)
    else top
  }

  /** The example of a bird at the top of the screen moving up at 5:
      gravity brings the velocity to -4.5, the top clamp stops it at 0. */
  lemma FallAtTopClamps(groundY: real)
    requires groundY >= BIRD_HEIGHT
    ensures var b := Bird(10.0, 0.0, BIRD_WIDTH, BIRD_HEIGHT, -5.0, 0, 0);
      Fall(b, groundY) == b.(y := 0.0, velocity := 0.0)
  {
  }

  /** The animation invariant: a valid frame and a counter below the speed. */
  predicate AnimationOk(b: Bird)
  {
    b.frame < BIRD_FRAMES && b.frameCounter < ANIMATION_SPEED
  }

  /** One updateBirdAnimation step while playing: the counter goes up,
      and on reaching ANIMATION_SPEED it resets and the frame advances
      modulo BIRD_FRAMES. */
  function Animate(b: Bird): (r: Bird)
    ensures r == b.(frame := r.frame, frameCounter := r.frameCounter)
    ensures AnimationOk(b) ==> AnimationOk(r)
    ensures (r.frameCounter == b.frameCounter + 1 && r.frame == b.frame) ||
            (r.frameCounter == 0 && r.frame == (b.frame + 1) % BIRD_FRAMES)
  {
    var counter := b.frameCounter + 1;
    if counter >= ANIMATION_SPEED then b.(frame := (b.frame + 1) % BIRD_FRAMES, frameCounter := 0)
    else b.(frameCounter := counter)
  }

  /** n animation steps in a row. */
  function AnimateN(b: Bird, n: nat): Bird
  {
    if n == 0 then b else Animate(AnimateN(b, n - 1))
  }

  /** Below the speed, animation steps only count up. */
  lemma {:induction false} AnimateCountsUp(b: Bird, k: nat)
    requires AnimationOk(b)
    requires b.frameCounter + k < ANIMATION_SPEED
    ensures AnimateN(b, k) == b.(frameCounter := b.frameCounter + k)
  {
    if k > 0 {
      AnimateCountsUp(b, k - 1);
    }
  }

  /** The wing animation is periodic: ANIMATION_SPEED ticks advance the
      frame by exactly one and bring the counter back to where it was. */
  lemma AnimationPeriod(b: Bird)
    requires AnimationOk(b)
    ensures AnimateN(b, ANIMATION_SPEED) == b.(frame := (b.frame + 1) % BIRD_FRAMES)
  {
    var c := b.frameCounter;
    var n := ANIMATION_SPEED - c - 1;
    var w := b.(frame := (b.frame + 1) % BIRD_FRAMES, frameCounter := 0);
    ReachSpeed(b, n);
    AnimateCountsUp(w, c);
    AnimateNSplit(b, n + 1, c);
  }

  /** From a valid state, the tick that brings the counter to
      ANIMATION_SPEED resets it and advances the frame. */
  lemma ReachSpeed(b: Bird, n: nat)
    requires AnimationOk(b) && n == ANIMATION_SPEED - b.frameCounter - 1
    ensures AnimateN(b, n + 1) == b.(frame := (b.frame + 1) % BIRD_FRAMES, frameCounter := 0)
  {
    AnimateCountsUp(b, n);
  }

  /** Splitting n + m animation steps into n steps followed by m. */
  lemma {:induction false} AnimateNSplit(b: Bird, n: nat, m: nat)
    ensures AnimateN(b, n + m) == AnimateN(AnimateN(b, n), m)
  {
    if m > 0 {
      AnimateNSplit(b, n, m - 1);
    }
  }

  /** Where the ground offset may lie: at 0, or within one canvas width
      to the left of it. */
  predicate GroundOffsetOk(x: real, canvasWidth: nat)
  {
    x == 0.0 || -(canvasWidth as real) < x <= 0.0
  }

  /** One updateGround step: scroll left by PIPE_SPEED, wrapping to 0 once
      the offset reaches a full canvas width. */
  function Scroll(x: real, canvasWidth: nat): (r: real)
    ensures GroundOffsetOk(x, canvasWidth) ==> GroundOffsetOk(r, canvasWidth)
    ensures x - PIPE_SPEED > -(canvasWidth as real) ==> r == x - PIPE_SPEED
    ensures x - PIPE_SPEED <= -(canvasWidth as real) ==> r == 0.0
  {
    var moved := x - PIPE_SPEED;
    if moved <= -(canvasWidth as real) then 0.0 else moved
  }

  /** The best-score update of gameOver and drawBestScore: the stored best
      is replaced only by a strictly higher score. */
  function Best(best: nat, score: nat): (r: nat)
    ensures r >= best && r >= score
    ensures r == best || r == score
    ensures score <= best ==> r == best
  {
    if score > best then score else best
  }

  /** The best score after sessions ending with the given scores. */
  function BestAfter(best: nat, scores: seq<nat>): nat
  {
    if scores == [] then best else Best(BestAfter(best, scores[..|scores| - 1]), scores[|scores| - 1])
  }

  /** The best score is the maximum of the stored value and every score
      ever reached, and it never decreases. */
  lemma {:induction false} BestAfterIsMaximum(best: nat, scores: seq<nat>)
    ensures BestAfter(best, scores) >= best
    ensures forall i :: 0 <= i < |scores| ==> BestAfter(best, scores) >= scores[i]
    ensures BestAfter(best, scores) == best || BestAfter(best, scores) in scores
  {
    if scores != [] {
      var init := scores[..|scores| - 1];
      BestAfterIsMaximum(best, init);
      assert forall i :: 0 <= i < |init| ==> init[i] == scores[i];
      assert BestAfter(best, init) in init ==> BestAfter(best, init) in scores;
    }
  }

  /** Repeating the update changes nothing. */
  lemma BestIdempotent(best: nat, score: nat)
    ensures Best(Best(best, score), score) == Best(best, score)
  {
  }
}
