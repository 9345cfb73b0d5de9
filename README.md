# Pong game state, modelled in Dafny

This project models the game-state update of a browser Pong clone
(`js/app.js`): a ball, the player's paddle that follows the pointer, a CPU
paddle that steers by a fixed rule, two scores, and the phase flags
`showIntro`, `isPaused` and `winner`. Drawing is set aside. What is left is a
small state machine over integer coordinates, driven by animation frames and
clicks.

- `model.dfy`, module `PongModel`: the constants of the game and the records
  `ball`, `paddle` and `cpuPaddle` as datatypes. It also has the `defaults`
  record and the whole state as one value. Each update rule is a pure
  function whose contract states what the rule does: `UpdateBall`,
  `UpdatePaddle`, `UpdateCpu`, `ResetBall`, `CheckForVictory`, `ResetGame`,
  `Frame` (one call of `draw`) and `Click` (the click handler). `Inv` is what
  holds between frames.
- `game.dfy`, module `Pong`: class `Game`. It holds the module-level state of
  the script as fields and has one method per update function of the source,
  with the same statements in the same order. Each method is proved to
  leave the object in the state that the matching `PongModel` rule gives.
  `Draw` and `Click` also keep the object invariant `Valid()`.
- `properties.dfy`, module `PongProperties`: facts that relate several
  rules or frames. These cover disjoint collision bands, the CPU paddle's
  recentring, and invariants over any sequence of frames and clicks (`Run`).

The canvas is a parameter of the model. The width must be at least 100 and
even, and the height at least 230 and even. Under these conditions:

- the canvas centre and every default position are integers;
- the ball can touch at most one side wall per step;
- the player paddle's collision band and the CPU paddle's collision band
  never overlap.

The pointer's x is an input of each frame and each click.

Two points of the code are worth noting:

- A click on the intro screen does more than hide the intro. The handler
  calls `draw` at once (js/app.js:63-66), so the first frame of play happens
  within the click. `Click` models this.
- The code keeps the phase in three separate fields (`isPaused`, `winner`,
  `showIntro`). The model keeps the fields and proves, as part of `Inv`,
  which combinations can occur between frames:
  - `isPaused` holds exactly when `winner` is set;
  - `winner` is the side whose score has reached 5, the player first;
  - a shown intro means nothing has been scored.

## Model

| member | source | states |
|---|---|---|
| `PongModel.DefaultsOf` | js/app.js:3-16 | the ball starts at the canvas centre; both paddles start centred on the midline and inside the canvas; the CPU paddle's bottom edge is 100 below the top of the canvas and the player paddle's top edge is 100 above its bottom |
| `PongModel.Initial` | js/app.js:18-50 | the loaded page shows the intro with no scores, no winner, not paused, the ball moving left and down; the invariant holds |
| `PongModel.WinnerOf` | js/app.js:259-264 | the player wins exactly when their score reaches 5; the CPU wins exactly when its score reaches 5 and the player's has not |
| `PongModel.BounceOffWalls` | js/app.js:209-217 | on a canvas of width ≥ 100, dx is negated exactly when the ball touches the left or the right wall; position and dy are untouched |
| `PongModel.BounceOffPaddles` | js/app.js:219-240 | dy is negated by a hit on the player paddle and again by a hit on the CPU paddle seen with the updated dy; \|dy\|, position and dx are kept |
| `PongModel.UpdateBall` | js/app.js:191-241 | the ball moves by exactly (dx, dy). Past H+100 the CPU scores and past −100 the player scores; either one pauses and skips all reflection. Otherwise a wall negates dx, and with the paddles on their rows dy is negated exactly when one paddle is hit (within the x-span ±10, leading edge in the band, moving toward it). \|dx\|, \|dy\|, the paddles, winner and intro are unchanged |
| `PongModel.ResetBall` | js/app.js:251-257 | the ball is at the canvas centre with dx negated and dy pointing down with the same magnitude, the game is unpaused, and nothing else changes |
| `PongModel.PlayerPaddleX` | js/app.js:139-152 | the paddle x is 2·pointer − 50 clamped to [0, W − 100], stated case by case, and it always lies in that range |
| `PongModel.UpdatePaddle` | js/app.js:139-152 | only the player paddle's x changes, to a position inside the canvas; its y is kept |
| `PongModel.UpdateCpu` | js/app.js:154-183 | while paused nothing changes; otherwise only the CPU paddle's x changes, by +6, −6 or 0, toward the midline when dy > 0 and toward the ball otherwise, and not at all when its centre is on target |
| `PongModel.CheckForVictory` | js/app.js:259-268 | a winner is recorded when a score has reached 5, the player taking priority; otherwise the winner is kept; nothing else changes |
| `PongModel.ResetGame` | js/app.js:281-290 | the state of a freshly loaded page except that the intro stays hidden, the ball keeps its velocity and the player paddle stays put; it keeps the invariant |
| `PongModel.Frame` | js/app.js:78-105 | an intro frame changes nothing. A frame keeps the invariant (so \|dx\| = 7, \|dy\| = 10, scores ≤ 5). A finished game stays frozen. At most one point is scored per frame. After a point without a winner, the ball is served from the centre, dx negated, moving down and unpaused. A winning point leaves the ball where it went out, and the player wins exactly when it went out at the top. A frame of play without a point moves the ball by its velocity. Outside the intro the player paddle's x becomes the clamped pointer position |
| `PongModel.Click` | js/app.js:61-73 | in the intro, hides the intro and runs one frame; after a win, resets the game to zero scores and no winner; during play, changes nothing; keeps the invariant |
| `PongProperties.PaddleBandsDisjoint` | js/app.js:224-240 | with both paddles on their rows and H ≥ 230, no ball is in both collision bands, so at most one paddle flips dy per step |
| `PongProperties.SideWallsDisjoint` | js/app.js:209-217 | with W ≥ 100 the ball never touches both side walls at once |
| `PongProperties.CpuRecentresWithoutOvershoot` | js/app.js:159-171 | each CPU update while the game is unpaused and the ball goes down shrinks the CPU paddle's distance from the midline by exactly 6 until it is 0, never overshooting, because its offset is a multiple of 6 |
| `PongProperties.FrameRecentresCpu` | js/app.js:86-102 | in a frame of play where the ball goes down and neither scores nor hits the player paddle, the CPU paddle's distance from the midline shrinks by exactly 6 until it is 0 |
| `PongProperties.CheckForVictoryIdempotent` | js/app.js:259-268 | checking for victory twice is the same as checking once |
| `PongProperties.FirstClickStartsPlay` | js/app.js:61-66 | the first click after loading hides the intro and plays a frame: the ball makes its first move left and down, nothing is scored, no winner, not paused |
| `PongProperties.Step` | js/app.js:56-73 | an animation frame or a click keeps the invariant |
| `PongProperties.RunPreservesInv` | js/app.js:78-105 | any sequence of frames and clicks keeps the invariant |
| `PongProperties.GameInvariantFromLoad` | js/app.js:86-102 | after any events from page load: \|dx\| = 7 and \|dy\| = 10; both scores ≤ 5; a winner exactly when a score is 5, and paused exactly then; the player paddle is inside the canvas |
| `PongProperties.FinishedGameIsFrozen` | js/app.js:86-102 | once there is a winner, frames without a click keep the winner, scores, ball and CPU paddle as they are, and the game stays paused |
| `PongProperties.FramesNeverLowerScores` | js/app.js:191-207 | frames without a click never lower either score |
| `Pong.Game.constructor` | js/app.js:9-50 | the object starts in the state of a freshly loaded page and satisfies its invariant |
| `Pong.Game.UpdateBallState` | js/app.js:191-241 | updates the fields in place to the state `UpdateBall` gives for the old state |
| `Pong.Game.UpdatePaddleState` | js/app.js:139-152 | updates the fields to the state `UpdatePaddle` gives; the paddle x lies in [0, W − 100] and its y is unchanged |
| `Pong.Game.UpdateCpuState` | js/app.js:154-183 | updates the fields to the state `UpdateCpu` gives |
| `Pong.Game.ResetBall` | js/app.js:251-257 | updates the fields to the state `PongModel.ResetBall` gives |
| `Pong.Game.CheckForVictory` | js/app.js:259-268 | updates the fields to the state `PongModel.CheckForVictory` gives |
| `Pong.Game.ResetGame` | js/app.js:281-290 | updates the fields to the state `PongModel.ResetGame` gives |
| `Pong.Game.Draw` | js/app.js:78-105 | one frame: the fields become `Frame` of the old state, and the object invariant is kept |
| `Pong.Game.Click` | js/app.js:61-73 | the fields become `PongModel.Click` of the old state, and the object invariant is kept |

## Left out

- Drawing: `intro`, `drawPlayerScore`, `drawCpuScore`, `drawPaddle`, `drawBall`, the `clearRect` at the start of `draw` and the text overlay of `checkForVictory`. They only issue commands to the 2D context.
- Colours, the font and its loading through `document.fonts.load`, and `main`'s registration of the event listeners. These are host plumbing. A frame is one call of `Frame`/`Draw`, and a click is one call of `Click`.
- Scheduling by `requestAnimationFrame`. The model does not capture that `draw` stops rescheduling itself while the intro is shown, so no frames arrive until the first click. A frame during the intro changes nothing in the model, as a call of `draw` would.
- `getMousePos` and the `pointer` record. The pointer's x is a parameter of every frame and click, so the initial pointer value (half the initial paddle x) is not modelled separately.
- The `console.log` in `updatePaddleState`.
- JavaScript numbers are doubles. The model uses unbounded integers and requires an even canvas width and height, so that every position the code computes is integral. A pointer x is taken to be an integer.
- The ball's radius, the paddles' width and height and the CPU speed are fields of the records in the source. They are never changed, so the model has them as constants. `resetGame` writes `cpuPaddle.y` back to its default; the model does this too.
