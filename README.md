# Ping-pong game simulation in Dafny

This project models the game logic of a browser ping-pong game: the class
`PingPong` in `src/js/PingPong.js`, without its drawing code. The game holds
one ball (position, radius, scalar speed, velocity) and two rackets: `user` on
the left, moved by the pointer, and `comp` on the right, moved by a
proportional controller. Each also has a score. They sit on a canvas of fixed
width `W` and height `H`. One call of `update` is one deterministic frame:

1. move the ball;
2. steer the computer racket towards it;
3. reflect the ball off the top and bottom walls;
4. pick the racket on the ball's half;
5. test that racket for a hit, and on a hit redirect the ball and add 0.6 to its speed;
6. award a point and `reset` when the ball passes a goal line.

The model has two files:

- `pingpong_model.dfy` (module `PingPongModel`) describes the game as
  values. It has the datatypes `Ball`, `Paddle` and `State`, the collision
  predicate and one function per phase of `update`. `Step` chains those
  phases into one frame, and `Run` applies a sequence of frames and pointer
  moves. The lemmas state what one frame and any run guarantee.
- `pingpong_game.dfy` (module `PingPongGame`) is the object itself: class
  `Game` with the fields `ball`, `user` and `comp`, which its methods update
  in place, and the constants `W` and `H`. Each method is proved to leave
  exactly the state the value-level model gives. Its invariant `Valid()`
  holds the geometry `generateObjs` fixes and a ball speed of at least 5.

`Math.cos` and `Math.sin` are parameters `cos, sin: real -> real` of `Update`
and of the model functions. Nothing is assumed about them, except where a
lemma says so in its `requires`. `Math.PI` is the real constant
3.141592653589793. JavaScript numbers are idealised as mathematical reals.

`reset` (src/js/PingPong.js:158) sets the speed back to 5 after every point,
so the invariant proved is that the speed never drops below 5, not that it
only grows.

## Model

| member | source | states |
|---|---|---|
| `PingPongModel.Initial` | src/js/PingPong.js:26-54 | the starting state: both rackets centred on the canvas's middle height, the computer racket against the right edge, the ball at the centre, both scores 0 |
| `PingPongGame.Game.constructor` | src/js/PingPong.js:15-20 | a new game on a width x height canvas is in the starting state and satisfies the object invariant |
| `PingPongGame.Game.GenerateObjs` | src/js/PingPong.js:26-54 | sets every field to the starting state (user racket at x 0, computer racket at W-20, both 20x200; ball at the centre with radius 15, speed 5 and velocity (5, 5)) |
| `PingPongModel.MoveRacket` | src/js/PingPong.js:121-124 | after a pointer move, the user racket's centre is exactly at the pointer's height relative to the canvas top, with no clamping; nothing else in the state changes |
| `PingPongGame.Game.MoveRacket` | src/js/PingPong.js:121-124 | sets user.y to clientY - rectTop - height/2; the ball and the computer racket are not touched; the invariant is kept |
| `PingPongModel.Collides` | src/js/PingPong.js:133-148 | a hit happens exactly when x+r > p.x, y+r > p.y, x-r < p.x+width and y-r < p.y+height all hold, all four strict |
| `PingPongModel.TouchingIsNoCollision` | src/js/PingPong.js:144-147 | a ball whose edge exactly touches a racket edge does not collide |
| `PingPongGame.Game.Reset` | src/js/PingPong.js:154-160 | the ball goes to (W/2, H/2) with speed 5 and velocityX negated; velocityY, the radius, both rackets and both scores are unchanged |
| `PingPongModel.Track` | src/js/PingPong.js:185-187 | the computer racket's controller changes only y, and shrinks the gap between the racket's centre and the ball's new y to exactly 0.9 of what it was |
| `PingPongModel.TrackNeverOvershoots` | src/js/PingPong.js:186-187 | the racket's centre stays on its side of the ball's y and gets strictly closer, so it never overshoots and never locks on |
| `PingPongModel.Advance` | src/js/PingPong.js:183-184 | the ball's displacement is exactly its velocity, and nothing but its position changes |
| `PingPongModel.WallBounce` | src/js/PingPong.js:190-192 | only velocityY may change, and only in sign; it is negated when the ball's edge is past the bottom wall (y+r > H) or the top wall (y-r < 0), and a ball clear of both walls is untouched |
| `PingPongModel.CollidePoint` | src/js/PingPong.js:196-199 | the hit point times half the racket's height is the ball's offset from the racket's centre: 0 at the centre, -1 at the top end, 1 at the bottom end |
| `PingPongModel.BounceAngle` | src/js/PingPong.js:202 | the angle is PI/4 times the hit point: 0 at the racket's centre, -45 and 45 degrees at its ends |
| `PingPongModel.Deflect` | src/js/PingPong.js:196-211 | a hit leaves the ball's position and radius alone and raises its speed by exactly 0.6 |
| `PingPongModel.DeflectVelocityLength` | src/js/PingPong.js:207-208 | when cos and sin form a unit vector at the bounce angle, the new velocity's length is the speed from before the increment |
| `PingPongModel.GoalOf` | src/js/PingPong.js:214-217 | no point exactly when the ball lies within [0, W]; the computer's point whenever the left edge is past 0, whatever the right edge does |
| `PingPongModel.Serve` | src/js/PingPong.js:154-160 | the served ball is at (W/2, H/2) with speed 5, velocityX negated, velocityY and radius kept; a ball no wider than the court is served with no point pending |
| `PingPongModel.Score` | src/js/PingPong.js:213-220 | only the scores and the ball can change; the computer's score rises by one exactly when the ball's left edge is past 0, the user's exactly when, failing that, its right edge is past W; at most one score changes and none decreases; the ball is served again exactly when a score changed, and is otherwise untouched |
| `PingPongModel.StepPhases` | src/js/PingPong.js:190-194 | within a frame the racket tested is picked by the advanced ball's x, after the computer racket's move; the wall bounce does not affect the hit test or the bounce angle |
| `PingPongModel.StepServeAfterMiss` | src/js/PingPong.js:213-220 | after a point in a frame without a hit, the serve's velocityX is the negated old velocityX and its velocityY is what the wall bounce left |
| `PingPongModel.StepServeAfterHit` | src/js/PingPong.js:205-220 | after a point in a frame with a hit, the serve's velocityX is the negated bounce velocityX and its velocityY is the bounce velocityY |
| `PingPongModel.Step` | src/js/PingPong.js:182-221 | one frame: a speed of at least 5 stays at least 5; neither score decreases; the two scores together rise by at most one; the user racket changes only in its score; the computer racket changes only in y and score, and closes the gap between its centre and the advanced ball's y to exactly 0.9 of what it was; the radius is kept |
| `PingPongModel.StepSpeed` | src/js/PingPong.js:193-220 | the racket tested is the user's when the advanced ball is left of W/2, otherwise the computer's after this frame's move. The speed comes out as 5 after a point, exactly 0.6 higher after a hit, and unchanged otherwise |
| `PingPongModel.StepScoring` | src/js/PingPong.js:213-220 | the computer's score rises by one exactly when the advanced ball's left edge is past 0. Failing that, the user's rises by one exactly when its right edge is past W. At most one score changes. After a point the ball is at (W/2, H/2) with speed 5 |
| `PingPongModel.StepQuiet` | src/js/PingPong.js:183-194 | with no hit and no point, the ball moves by its velocity and keeps speed and velocityX; velocityY is negated exactly when the ball crossed the top or bottom wall |
| `PingPongModel.StepHit` | src/js/PingPong.js:205-211 | after a hit with no point, velocityX = direction * speed * cos(angle) and velocityY = speed * sin(angle). Both use the speed from before the 0.6 increment. Direction is 1 on the left half and -1 otherwise |
| `PingPongModel.StepHitPosition` | src/js/PingPong.js:183-211 | after a hit with no point, the ball's position is its old position plus its old velocity; the hit branch does not move the ball |
| `PingPongModel.CollidePointBound` | src/js/PingPong.js:196-199 | for a colliding ball, the normalised hit point lies strictly within 1 + 2r/height of 0 |
| `PingPongModel.BounceAngleBound` | src/js/PingPong.js:196-202 | when the racket is taller than the ball's diameter, the bounce angle lies strictly between -90 and 90 degrees |
| `PingPongModel.StepHitDirection` | src/js/PingPong.js:205-207 | if cosine is positive on (-90, 90) degrees and the ball is moving, a hit sends it rightwards off the user's racket and leftwards off the computer's |
| `PingPongGame.Game.Hit` | src/js/PingPong.js:194-212 | the hit branch of `update` sets velocityX and velocityY from the bounce angle and the old speed, then adds 0.6 to the speed |
| `PingPongGame.Game.UpdateScore` | src/js/PingPong.js:213-220 | the goal-line test at the end of `update`: the computer's point, failing that the user's point, each followed by `reset` |
| `PingPongGame.Game.Update` | src/js/PingPong.js:182-221 | one call of `update` turns the fields into exactly the frame `Step` gives, keeping the geometry and a speed of at least 5 |
| `PingPongModel.Apply` | src/js/PingPong.js:166-167 | an animation frame (`renderer`'s call of `update`) is one `Step`, and a pointer move (the `mousemove` listener registered at src/js/PingPong.js:19) is `MoveRacket`; either keeps both rackets' heights positive |
| `PingPongModel.Run` | src/js/PingPong.js:166-176 | any interleaving of frames and pointer moves keeps both rackets' heights positive |
| `PingPongModel.SpeedFloor` | src/js/PingPong.js:154-221 | once the ball's speed is at least 5, no sequence of frames and pointer moves takes it below 5 |
| `PingPongModel.RunKeepsScoresAndShape` | src/js/PingPong.js:214-220 | over any run neither score decreases, and the rackets' x, width and height and the ball's radius do not change |
| `PingPongModel.PointsPerFrame` | src/js/PingPong.js:214-220 | over any run the scores together rise by at most the number of frames |
| `PingPongModel.FirstFrame` | src/js/PingPong.js:182-187 | on an 800 x 600 canvas the first frame moves the ball from (400, 300) to (405, 305) and the computer racket down by 0.5; there is no hit and no point |
| `PingPongModel.UserHit` | src/js/PingPong.js:194-211 | a ball reaching (20, 300) against the user racket at (0, 250) is hit: its speed becomes 5.6 and, with cos(-22.5 degrees) > 0, it leaves rightwards |
| `PingPongModel.CompPoint` | src/js/PingPong.js:214-216 | on an 800-wide canvas, when the ball's left edge passes 0 the computer scores and the ball is served again from (400, 300) at speed 5 |

## Left out

- Drawing (`drawRect`, `drawCircle`, `drawText`, `drawNet` and the drawing in `renderer`) only acts on the canvas and changes no game state. The self-scheduling through `requestAnimationFrame` is host scheduling. `Run` stands for the frames and pointer events the host delivers, in order.
- The constructor's canvas lookup, `getContext` and the `mousemove` listener are browser I/O. `MoveRacket` takes the pointer's `clientY` and the canvas's `getBoundingClientRect().top` as plain numbers.
- `Math.cos` and `Math.sin` are uninterpreted parameters. `Math.PI` is a real constant. The numeric values of the bounce velocity are not verified. `StepHitDirection` and `UserHit` take the sign of cosine as a hypothesis.
- IEEE double arithmetic is idealised as real arithmetic: no rounding, no NaN and no infinities.
- `Step`, `Apply` and `Run` require both rackets' heights to be positive. The hit point is divided by half the racket's height, and for a height of 0 JavaScript would produce NaN or an infinity, which reals cannot express. `generateObjs` sets both heights to 200 and nothing changes them.
- The `top`, `bottom`, `left` and `right` fields that `collision` writes onto the ball and the racket are scratch values that nothing else reads. `Collides` computes them locally (`BallBox`, `PaddleBox`).
- Colours are drawing-only data and are not modelled.
- The hit branch and the scoring branch of `update` are the helper methods `Hit` and `UpdateScore`. They change the fields in the same order as the source.
- `src/serviceWorker.js` (install-time cache filling and fetch handling) is asynchronous cache and network I/O with no game logic.
- `config/webpack.base.conf.js`, `config/webpack.dev.conf.js` and `config/webpack.build.conf.js` are declarative build configuration with no behaviour of their own.
