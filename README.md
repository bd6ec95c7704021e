# Flappy Bird game engine, modelled in Dafny

This project models the game logic of `js/game.js`, a single-screen Flappy Bird clone.
A bird falls under constant gravity and flaps upward on a click or a touch.
Pipe pairs with a fixed gap spawn at the right edge on a timer and scroll left.
Touching the ground or a pipe ends the game. Each pipe cleared scores one point, and a best score is kept.

The module-level state of `js/game.js` becomes the fields of one `FlappyGame.Game` object.
That state is the bird, the pipe array, the ground, `score`, `gameState`, `pipeSpawnTimer` and `bestScore`.
Each game-logic function becomes a method that updates those fields, as the source does.
Each method is proved against pure functions in two modules:

- `Physics` (`physics.dfy`): the constants, the phase, the bird and ground records, and gravity with clamping. It also holds the wing animation, ground scrolling and the best-score maximum.
- `Pipes` (`pipes.dfy`): pipe geometry and the random bottom height. It also holds the shift-and-drop pass over the pipe list, the scoring rule and the collision tests.
- `FlappyGame` (`game.dfy`): the `Game` class and its methods.

Coordinates are exact `real`s. The canvas size is a pair of `nat`s.
`Math.random()` is passed in as a parameter `r` with `0 <= r < 1`. The elapsed frame time is passed in as `deltaTime`.

Behaviours of the code that are easy to misread:

- Scoring runs on the tick that ends the game. `updateScore` runs right after `checkCollisions`, inside the same `'playing'` block of `gameLoop`. The best score that `gameOver` records therefore misses a point scored on that tick. `drawBestScore` then runs in the same frame and folds that last point into the best score. `FlappyGame.Game.GameLoop` proves that the best score covers the final score.
- The bottom-pipe height is not clamped on a short canvas. When `canvas.height < 330`, the range `[50, max]` is empty, and `floor(r * (max - min + 1)) + min` lands in `(max, 50]`. A pipe can then get a negative height (`Pipes.ShortCanvasNegativeTop`).
- The pipe array is in spawn order, which is increasing `x`. The oldest pair is the leftmost.
- `startGame` sets the phase to playing from any phase. It is also wired to the play button.
- A click on the play or the restart button also bubbles to the document's `handleClick`. That handler then sees the playing phase, so every button press also flaps the bird.

## Model

| member | source | states |
|---|---|---|
| `Physics.Fall` | js/game.js:220-241 | The bird never ends below the ground line, and it ends at or below the top whenever the ground leaves room for it. Without a clamp, velocity and position are integrated by exactly one GRAVITY step. When a clamp fires, the velocity is 0. If the new position reaches the ground, the bird rests on the ground line, since that clamp is checked last. If it is above the top and the ground leaves room, the bird rests at y = 0. Only y and velocity change. |
| `Physics.FallAtTopClamps` | js/game.js:222-234 | A bird at y = 0 with velocity -5 reaches velocity -4.5 and y = -4.5. The top clamp then puts it back at y = 0 with velocity 0. |
| `Physics.Animate` | js/game.js:444-455 | One step either raises the counter by one or resets it to 0 and advances the frame modulo BIRD_FRAMES. It keeps `frame < 3` and `frameCounter < 5`, and changes nothing else. |
| `Physics.AnimateCountsUp` | js/game.js:447-453 | Below ANIMATION_SPEED, k steps only raise the counter by k. |
| `Physics.AnimationPeriod` | js/game.js:444-455 | ANIMATION_SPEED (5) steps advance the frame by exactly one and bring the counter back to its start. |
| `Physics.ReachSpeed` | js/game.js:447-453 | From a valid state, the step that brings the counter to ANIMATION_SPEED resets it to 0 and advances the frame modulo BIRD_FRAMES. |
| `Physics.Scroll` | js/game.js:458-466 | The ground offset stays at 0 or within one canvas width to its left. It moves by -PIPE_SPEED unless that reaches -canvas.width, in which case it wraps to 0. |
| `Physics.Best` | js/game.js:205-208 | The new best score is the maximum of the old best and the score. It never decreases and is never below the score. |
| `Physics.BestAfterIsMaximum` | js/game.js:205-208 | After any sequence of sessions, the best score is at least the initial best and every session's score, and it is one of them. |
| `Physics.BestIdempotent` | js/game.js:471-474 | Repeating the best-score update, as drawBestScore does every game-over frame, changes nothing. |
| `Pipes.PipeHeight` | js/game.js:268-271 | On a canvas tall enough for the range, the bottom height lies in [50, canvas.height - 80 - 150 - 50]. Otherwise it lies above that maximum and at most 50. |
| `Pipes.ScaledFloorBounds` | js/game.js:271 | floor(Math.random() * span) lies in [0, span) for a positive span and in [span, 0] otherwise. |
| `Pipes.NewPipe` | js/game.js:273-286 | A new pair is 52 wide, unscored and at x = canvas.width. Top height + PIPE_GAP + bottom height equals the ground line, the bottom pipe starts PIPE_GAP below the top pipe, and the bottom pipe reaches the ground. |
| `Pipes.NewPipeHeights` | js/game.js:269-285 | On a tall enough canvas, both pipes of a new pair are at least 50 high. |
| `Pipes.ShortCanvasNegativeTop` | js/game.js:269-280 | On a 200-high canvas, with r = 0, the top pipe gets a negative height. |
| `Pipes.AdvanceStep` | js/game.js:255-263 | Handling one more pipe of the list appends its shifted copy to the result when it is still on screen, and appends nothing otherwise. |
| `Pipes.VisibleMembers` | js/game.js:258-262 | A pipe survives the drop pass iff it is in the list and on screen (x + width >= 0). The pass never lengthens the list. |
| `Pipes.VisibleAppend` | js/game.js:255-263 | Dropping pipes distributes over concatenation, so survivors keep their relative order. |
| `Pipes.VisibleAscending` | js/game.js:255-263 | Dropping pipes keeps a spawn-ordered list (increasing x) ordered. |
| `Pipes.AdvanceSurvivors` | js/game.js:255-263 | Every survivor is on screen and is a pipe of the list moved left by exactly PIPE_SPEED. A pipe is kept iff its shifted x + width >= 0. |
| `Pipes.AdvanceKeepsPipesOk` | js/game.js:246-263 | Spawning at most one well-shaped pair at the right edge, then moving and dropping, keeps the list well shaped, on screen, in spawn order and left of the spawn point. |
| `Pipes.ScoreAll` | js/game.js:324-331 | Only the scored flags change. A flag is set afterwards iff it was set before or the bird is past the pipe's right edge. |
| `Pipes.ScoreCountsFlags` | js/game.js:324-331 | The points added equal the number of flags that go from false to true, and never exceed the number of pipes. |
| `Pipes.ScoreIdempotent` | js/game.js:323-332 | A second scoring pass with the bird where it was changes no pipe and adds no point. |
| `Pipes.ScoreKeepsPipesOk` | js/game.js:323-332 | Scoring moves no pipe and keeps the pipe-list invariant. |
| `Pipes.ScoreJustPast` | js/game.js:326-328 | A pipe at x = 10, 52 wide, with the bird at x = 65, is flagged and scores one point. |
| `Pipes.PipeHitIsOverlap` | js/game.js:305-317 | For a bird within the screen, the pipe test is exactly "the bird's box overlaps the top or the bottom pipe's box". |
| `FlappyGame.Game.constructor` | js/game.js:32-51 | The game starts in the start phase with a freshly reset bird, ground, score and timer, no pipes, and the saved best score. |
| `FlappyGame.Game.ResetGame` | js/game.js:74-107 | The bird is back at (width/3, height/2) at rest on frame 0. The pipes are emptied, the ground offset, score and spawn timer are 0, and the invariant holds. |
| `FlappyGame.Game.StartGame` | js/game.js:183-187 | The phase becomes playing, and nothing else changes. |
| `FlappyGame.Game.RestartGame` | js/game.js:190-194 | Resets the session and enters the playing phase, keeping the best score. |
| `FlappyGame.Game.EndGame` | js/game.js:197-212 | The phase becomes game over, and the best score becomes max(best, score). |
| `FlappyGame.Game.UpdateBestScore` | js/game.js:469-474 | The best score becomes max(best, score). |
| `FlappyGame.Game.FlapBird` | js/game.js:215-217 | The velocity becomes exactly FLAP_POWER whatever it was, and nothing else changes. |
| `FlappyGame.Game.HandleClick` | js/game.js:164-170 | From start, the game starts without a flap. While playing, the bird flaps. After game over, nothing happens. |
| `FlappyGame.Game.HandleTouch` | js/game.js:173-180 | The same dispatch as a click. |
| `FlappyGame.Game.PressPlayButton` | js/game.js:58 | `startGame` then the bubbled `handleClick`: the phase becomes playing and the bird flaps, with nothing else changed. |
| `FlappyGame.Game.PressRestartButton` | js/game.js:59 | `restartGame` then the bubbled `handleClick`: a reset session in the playing phase whose fresh bird already has velocity FLAP_POWER. |
| `FlappyGame.Game.UpdateBird` | js/game.js:220-241 | The bird becomes `Fall` of the old bird on the ground line, so it is between the top and the ground. |
| `FlappyGame.Game.GeneratePipe` | js/game.js:267-290 | Exactly one pair, `NewPipe` with the drawn height, is appended after the unchanged existing pipes. |
| `FlappyGame.Game.UpdatePipes` | js/game.js:244-264 | If timer + dt >= 1500, the timer becomes 0 and one pair (`SpawnedPipes`) is spawned before moving. Otherwise the timer becomes timer + dt and nothing is spawned. Either way, the pipes become `Advance` of that list and the invariant holds. |
| `FlappyGame.Game.MovePipes` | js/game.js:255-263 | The in-place splice loop visits every pipe once and leaves exactly `Advance` of the old list. |
| `FlappyGame.Game.CheckCollisions` | js/game.js:293-320 | The game ends iff the bird is on the ground or hits some pipe, and then the best score takes the score. A ground hit snaps the bird onto the ground line. Without a collision, phase and best score are unchanged. |
| `FlappyGame.Game.UpdateScore` | js/game.js:323-332 | The pipes become `ScoreAll` of the old list, and the score rises by the number of newly cleared pipes. |
| `FlappyGame.Game.UpdateGround` | js/game.js:458-466 | The ground offset becomes `Scroll` of the old offset, and the rest of the ground is unchanged. |
| `FlappyGame.Game.UpdateBirdAnimation` | js/game.js:444-455 | The animation advances one `Animate` step while playing, and is left alone otherwise. |
| `FlappyGame.Game.MoveWorld` | js/game.js:126-133 | The bird becomes `Fall` of the old bird, the timer and the pipes follow `UpdatePipes`, and the ground offset becomes `Scroll` of the old offset. |
| `FlappyGame.Game.ResolveTick` | js/game.js:135-139 | The game ends iff the bird collides with the ground or a pipe of the list. The pipes then become `ScoreAll` and the score rises by `NewlyPassed`, on the ending tick too. The best score that the game over records is max(old best, score before this tick's points). |
| `FlappyGame.Game.PlayingTick` | js/game.js:125-140 | With `moved` the old pipes plus any spawned pair, moved and dropped: the bird is `Fall` of the old bird, the game ends iff that bird collides with the ground or `moved`, the pipes are `ScoreAll` of `moved`, the score rises by `NewlyPassed` of `moved`, and timer and ground follow their single-step rules. |
| `FlappyGame.Game.GameLoop` | js/game.js:110-161 | Keeps the invariant, and phase changes are legal. Outside the playing phase nothing but the best score moves. While playing, the new state is exactly the playing tick's (bird fallen, pipes spawned, moved and scored, ground scrolled, score raised by the newly passed pipes, game over iff a collision), followed by one `Animate` step if still playing. Once the game is over, the best score is max(old best, final score), counting the point scored on the last tick. |

## Left out

- Canvas drawing and image loading (`drawBackground`, `drawBird`, `drawPipes`, `drawGround`, `load*Images`, the DOM part of `drawBestScore`) only render state.
- DOM updates (`textContent`, `classList`), `preventDefault`, and the listener registration in `init` are user-interface plumbing.
- `localStorage` and `parseInt` are storage I/O. The saved best score is a constructor parameter, and writing it back is not modelled.
- `requestAnimationFrame`, `lastTime`, `frameId` and the timestamp subtraction are external frame pacing. `deltaTime` is a parameter of `GameLoop`.
- `frameCount` is only written and never read, so it is not modelled.
- `bird.rotation` is cosmetic and depends on `Math.PI`.
- The window resize handler changes the canvas size and `ground.y` from outside a tick. The canvas size is fixed at construction.
- `init`'s first call `gameLoop(0)` is left to the caller.
- Numbers are exact reals, not IEEE doubles. Positions and velocities are multiples of 0.5 apart from `canvas.width / 3`, so for them the two agree. `deltaTime` is a difference of fractional frame timestamps, and `pipeSpawnTimer` sums these. The exact sum may reach 1500 one tick earlier or later than the double sum does, so the model may spawn a pair one tick off from the browser. The score is an unbounded `nat`.
- Pipe objects and the bird and ground objects are held as values that the methods reassign. The source mutates them in place, but nothing else references them, so the model loses no aliasing.
- FlappyGame.Game.MovePipes: this is the movement loop of `updatePipes`, split into its own method. `UpdatePipes` calls it right after the spawn step.
- FlappyGame.Game.PlayingTick: this is the `'playing'` block of `gameLoop`, split into its own method. `MoveWorld` and `ResolveTick` are its two halves.
- FlappyGame.Game.PressPlayButton, FlappyGame.Game.PressRestartButton: the browser's event dispatch is fixed to the order the button listener runs first, then the bubbled document listener.
