/** The game state of the ping-pong simulation as plain values, and one frame
    of the simulation as a function of it. The class in module PingPongGame
    mutates its fields step by step and is proved to agree with `Step`. */
module PingPongModel {

  /** Math.PI as a real number (JavaScript numbers are idealised as reals). */
  const PI: real := 3.141592653589793

  /** Gain of the computer paddle's proportional controller (compLVL). */
  const COMP_LEVEL: real := 0.1
  /** Speed added to the ball on every paddle hit. */
  const SPEED_UP: real := 0.6
  /** Speed of the ball at the start and after every point. */
  const SERVE_SPEED: real := 5.0
  /** Velocity components of the ball at the start of the game. */
  const SERVE_VELOCITY: real := 5.0
  const PADDLE_WIDTH: real := 20.0
  const PADDLE_HEIGHT: real := 200.0
  const BALL_RADIUS: real := 15.0

  datatype Ball = Ball(x: real, y: real, r: real, speed: real, velocityX: real, velocityY: real)

  /** A racket: `user` on the left, `comp` on the right. */
  datatype Paddle = Paddle(x: real, y: real, width: real, height: real, score: nat)

  datatype State = State(ball: Ball, user: Paddle, comp: Paddle)

  /** The edges `collision` caches on its arguments. */
  datatype Box = Box(top: real, bottom: real, left: real, right: real)

  /** The outcome of the goal-line test at the end of a frame. */
  datatype Goal = NoGoal | CompScores | UserScores

  /** What the host delivers: an animation frame or a pointer movement. */
  datatype Event = Frame | PointerMove(clientY: real, rectTop: real)

  function Centre(p: Paddle): real
  {
    p.y + p.height / 2.0
  }

  /** The state `generateObjs` builds on a canvas of width w and height h. */
  function Initial(w: real, h: real): (s: State)
    ensures Centre(s.user) == h / 2.0 && Centre(s.comp) == h / 2.0
    ensures s.comp.x + s.comp.width == w
    ensures s.ball.x == w / 2.0 && s.ball.y == h / 2.0
    ensures s.user.score == 0 && s.comp.score == 0
  {
    State(Ball(w / 2.0, h / 2.0, BALL_RADIUS, SERVE_SPEED, SERVE_VELOCITY, SERVE_VELOCITY),
          Paddle(0.0, h / 2.0 - PADDLE_HEIGHT / 2.0, PADDLE_WIDTH, PADDLE_HEIGHT, 0),
          Paddle(w - PADDLE_WIDTH, h / 2.0 - PADDLE_HEIGHT / 2.0, PADDLE_WIDTH, PADDLE_HEIGHT, 0))
  }

  /** The geometry `generateObjs` fixes and no operation changes. */
  predicate Shaped(s: State, w: real)
  {
    s.user.x == 0.0 && s.user.width == PADDLE_WIDTH && s.user.height == PADDLE_HEIGHT &&
    s.comp.x == w - PADDLE_WIDTH && s.comp.width == PADDLE_WIDTH && s.comp.height == PADDLE_HEIGHT &&
    s.ball.r == BALL_RADIUS
  }

  /** Both rackets have a height to divide by when normalising the hit point. */
  predicate Proper(s: State)
  {
    s.user.height > 0.0 && s.comp.height > 0.0
  }

  // ---------------------------------------------------------------------
  // collision

  function BallBox(b: Ball): Box
  {
    Box(b.y - b.r, b.y + b.r, b.x - b.r, b.x + b.r)
  }

  function PaddleBox(p: Paddle): Box
  {
    Box(p.y, p.y + p.height, p.x, p.x + p.width)
  }

  /** `collision(ball, player)`: the ball's bounding square and the racket
      overlap strictly on all four sides. */
  function Collides(b: Ball, p: Paddle): (hit: bool)
    ensures hit <==> b.x + b.r > p.x && b.y + b.r > p.y &&
                     b.x - b.r < p.x + p.width && b.y - b.r < p.y + p.height
  {
    var bb, pb := BallBox(b), PaddleBox(p);
    bb.right > pb.left && bb.bottom > pb.top && bb.left < pb.right && bb.top < pb.bottom
  }

  /** A ball whose edge exactly touches a racket's edge does not collide with it. */
  lemma TouchingIsNoCollision(b: Ball, p: Paddle)
    requires b.x + b.r == p.x || b.y + b.r == p.y ||
             b.x - b.r == p.x + p.width || b.y - b.r == p.y + p.height
    ensures !Collides(b, p)
  {
  }

  // ---------------------------------------------------------------------
  // The phases of `update`, in the order the source runs them

  /** Move the ball by its velocity: the displacement is exactly the
      velocity, and nothing but the position changes. */
  function Advance(b: Ball): (a: Ball)
    ensures a.x - b.x == b.velocityX && a.y - b.y == b.velocityY
    ensures a == b.(x := a.x, y := a.y)
  {
    b.(x := b.x + b.velocityX, y := b.y + b.velocityY)
  }

  /** The computer racket's proportional controller, steering towards targetY. */
  function Track(comp: Paddle, targetY: real): (c: Paddle)
    ensures c == comp.(y := c.y)
    ensures Centre(c) - targetY == (1.0 - COMP_LEVEL) * (Centre(comp) - targetY)
  {
    comp.(y := comp.y + (targetY - (comp.y + comp.height / 2.0)) * COMP_LEVEL)
  }

  /** The racket's centre keeps its side of the target and gets strictly
      closer to it: it neither overshoots nor locks on. */
  lemma TrackNeverOvershoots(comp: Paddle, targetY: real)
    ensures var gap, gap' := Centre(comp) - targetY, Centre(Track(comp, targetY)) - targetY;
            (gap > 0.0 ==> 0.0 < gap' < gap) && (gap < 0.0 ==> gap < gap' < 0.0) &&
            (gap == 0.0 ==> gap' == 0.0)
  {
  }

  predicate HitsWall(b: Ball, h: real)
  {
    b.y + b.r > h || b.y - b.r < 0.0
  }

  /** Reflect the ball off the top or bottom wall: only velocityY may change,
      it keeps its magnitude, and a ball clear of both walls is untouched. */
  function WallBounce(b: Ball, h: real): (c: Ball)
    ensures c == b.(velocityY := c.velocityY)
    ensures c.velocityY == b.velocityY || c.velocityY == -b.velocityY
    ensures HitsWall(b, h) ==> c.velocityY == -b.velocityY
    ensures 0.0 <= b.y - b.r && b.y + b.r <= h ==> c == b
  {
    if HitsWall(b, h) then b.(velocityY := -b.velocityY) else b
  }

  /** The ball is on the user's (left) half of the court. */
  predicate OnUserHalf(b: Ball, w: real)
  {
    b.x < w / 2.0
  }

  /** The racket tested for a hit: the one on the ball's half. */
  function ActivePaddle(b: Ball, w: real, user: Paddle, comp: Paddle): Paddle
  {
    if OnUserHalf(b, w) then user else comp
  }

  /** Where the ball struck the racket, normalised so that the racket's ends are -1 and 1. */
  function CollidePoint(b: Ball, p: Paddle): (cp: real)
    requires p.height != 0.0
    ensures cp * (p.height / 2.0) == b.y - Centre(p)
    ensures b.y == Centre(p) ==> cp == 0.0
    ensures b.y == p.y ==> cp == -1.0
    ensures b.y == p.y + p.height ==> cp == 1.0
  {
    var half := p.height / 2.0;
    DivideExact(-half, -1.0, half);
    DivideExact(half, 1.0, half);
    (b.y - (p.y + half)) / half
  }

  /** The bounce angle in radians: 0 at the racket's centre and 45 degrees
      (`PI / 4`) at its ends, proportional in between. */
  function BounceAngle(b: Ball, p: Paddle): (angle: real)
    requires p.height != 0.0
    ensures angle * 4.0 == CollidePoint(b, p) * PI
    ensures b.y == Centre(p) ==> angle == 0.0
    ensures b.y == p.y ==> angle == -PI / 4.0
    ensures b.y == p.y + p.height ==> angle == PI / 4.0
  {
    CollidePoint(b, p) * PI / 4.0
  }

  /** Redirect the ball after a hit on racket p and speed it up: the ball
      stays where it is and the speed rises by exactly 0.6. */
  function Deflect(b: Ball, p: Paddle, w: real, cos: real -> real, sin: real -> real): (d: Ball)
    requires p.height != 0.0
    ensures d == b.(velocityX := d.velocityX, velocityY := d.velocityY, speed := d.speed)
    ensures d.speed == b.speed + SPEED_UP
  {
    var direction := if OnUserHalf(b, w) then 1.0 else -1.0;
    var angle := BounceAngle(b, p);
    b.(velocityX := direction * b.speed * cos(angle),
       velocityY := b.speed * sin(angle),
       speed := b.speed + SPEED_UP)
  }

  /** When cosine and sine form a unit vector at the bounce angle, the new
      velocity's length is the speed from before the 0.6 increment. */
  lemma DeflectVelocityLength(b: Ball, p: Paddle, w: real, cos: real -> real, sin: real -> real)
    requires p.height != 0.0
    requires var a := BounceAngle(b, p); cos(a) * cos(a) + sin(a) * sin(a) == 1.0
    ensures var d := Deflect(b, p, w, cos, sin);
            d.velocityX * d.velocityX + d.velocityY * d.velocityY == b.speed * b.speed
  {
    var a := BounceAngle(b, p);
    var dir := if OnUserHalf(b, w) then 1.0 else -1.0;
    var c, n := cos(a), sin(a);
    assert dir * dir == 1.0;
    calc {
      (dir * b.speed * c) * (dir * b.speed * c) + (b.speed * n) * (b.speed * n);
      (dir * dir) * (b.speed * b.speed) * (c * c) + (b.speed * b.speed) * (n * n);
      (b.speed * b.speed) * (c * c + n * n);
    }
  }

  /** The goal-line test: no point exactly when the ball lies within the
      court, and the left goal line is tested first. */
  function GoalOf(b: Ball, w: real): (g: Goal)
    ensures g == NoGoal <==> 0.0 <= b.x - b.r && b.x + b.r <= w
    ensures g == CompScores <==> b.x - b.r < 0.0
  {
    if b.x - b.r < 0.0 then CompScores
    else if b.x + b.r > w then UserScores
    else NoGoal
  }

  /** `reset`: serve again from the centre, back at the serving speed, towards
      the other side. */
  function Serve(b: Ball, w: real, h: real): (c: Ball)
    ensures c.x == w / 2.0 && c.y == h / 2.0 && c.speed == SERVE_SPEED
    ensures c.velocityX == -b.velocityX && c.velocityY == b.velocityY && c.r == b.r
    ensures 0.0 <= 2.0 * b.r <= w ==> GoalOf(c, w) == NoGoal
  {
    b.(x := w / 2.0, y := h / 2.0, speed := SERVE_SPEED, velocityX := -b.velocityX)
  }

  /** One call of `update`. The speed never falls below the serving speed once
      there, only one score moves and by at most one, and besides the computer
      racket's y and the scores neither racket changes; the computer racket
      closes 10% of its gap to the ball's advanced y. */
  function Step(s: State, w: real, h: real, cos: real -> real, sin: real -> real): (r: State)
    requires Proper(s)
    ensures s.ball.speed >= SERVE_SPEED ==> r.ball.speed >= SERVE_SPEED
    ensures r.user.score >= s.user.score && r.comp.score >= s.comp.score
    ensures (r.user.score - s.user.score) + (r.comp.score - s.comp.score) <= 1
    ensures r.user == s.user.(score := r.user.score)
    ensures r.comp == s.comp.(y := r.comp.y, score := r.comp.score)
    ensures r.ball.r == s.ball.r
    ensures var ty := s.ball.y + s.ball.velocityY;
            Centre(r.comp) - ty == (1.0 - COMP_LEVEL) * (Centre(s.comp) - ty)
  {
    var moved := Advance(s.ball);
    var comp := Track(s.comp, moved.y);
    var bounced := WallBounce(moved, h);
    var player := ActivePaddle(bounced, w, s.user, comp);
    var hit := if Collides(bounced, player) then Deflect(bounced, player, w, cos, sin) else bounced;
    Score(State(hit, s.user, comp), w, h)
  }

  /** The goal-line test that ends `update`: a point for the computer, failing
      that a point for the user, and then `reset`. */
  function Score(s: State, w: real, h: real): (r: State)
    ensures r.user == s.user.(score := r.user.score) && r.comp == s.comp.(score := r.comp.score)
    ensures r.comp.score == s.comp.score + 1 <==> s.ball.x - s.ball.r < 0.0
    ensures r.user.score == s.user.score + 1 <==> 0.0 <= s.ball.x - s.ball.r && s.ball.x + s.ball.r > w
    ensures r.comp.score == s.comp.score || r.user.score == s.user.score
    ensures r.user.score >= s.user.score && r.comp.score >= s.comp.score
    ensures r.ball == if r.user.score == s.user.score && r.comp.score == s.comp.score
                      then s.ball else Serve(s.ball, w, h)
  {
    match GoalOf(s.ball, w)
    case CompScores => State(Serve(s.ball, w, h), s.user, s.comp.(score := s.comp.score + 1))
    case UserScores => State(Serve(s.ball, w, h), s.user.(score := s.user.score + 1), s.comp)
    case NoGoal => s
  }

  /** `moveRacket`: the user's racket is centred on the pointer, without clamping. */
  function MoveRacket(s: State, clientY: real, rectTop: real): (r: State)
    ensures Centre(r.user) == clientY - rectTop
    ensures r == s.(user := s.user.(y := r.user.y))
  {
    s.(user := s.user.(y := clientY - rectTop - s.user.height / 2.0))
  }

  function Apply(s: State, e: Event, w: real, h: real, cos: real -> real, sin: real -> real): (r: State)
    requires Proper(s)
    ensures Proper(r)
  {
    match e
    case Frame => Step(s, w, h, cos, sin)
    case PointerMove(clientY, rectTop) => MoveRacket(s, clientY, rectTop)
  }

  /** The state after the host delivers the events in order. */
  function Run(s: State, events: seq<Event>, w: real, h: real, cos: real -> real, sin: real -> real): (r: State)
    requires Proper(s)
    ensures Proper(r)
    decreases |events|
  {
    if events == [] then s
    else Run(Apply(s, events[0], w, h, cos, sin), events[1..], w, h, cos, sin)
  }

  // ---------------------------------------------------------------------
  // Properties of one frame

  /** Step unfolded: the racket tested is picked by the advanced ball's x, and
      the wall bounce, which only changes velocityY, does not affect the hit
      test or the bounce angle. */
  lemma StepPhases(s: State, w: real, h: real, cos: real -> real, sin: real -> real)
    requires Proper(s)
    ensures var b := Advance(s.ball);
            var comp := Track(s.comp, b.y);
            var p := if b.x < w / 2.0 then s.user else comp;
            var bounced := WallBounce(b, h);
            Collides(bounced, p) == Collides(b, p) &&
            BounceAngle(bounced, p) == BounceAngle(b, p) &&
            Step(s, w, h, cos, sin) ==
              Score(State(if Collides(b, p) then Deflect(bounced, p, w, cos, sin) else bounced, s.user, comp), w, h)
  {
    var b := Advance(s.ball);
    var comp := Track(s.comp, b.y);
    var bounced := WallBounce(b, h);
    var p := ActivePaddle(bounced, w, s.user, comp);
    assert p == if b.x < w / 2.0 then s.user else comp;
  }

  /** The racket `update` tests is the user's when the advanced ball is on the
      left half and otherwise the computer's, already moved this frame; the
      speed comes out as the serving speed after a point, 0.6 higher after a
      hit, and unchanged otherwise. */
  lemma StepSpeed(s: State, w: real, h: real, cos: real -> real, sin: real -> real)
    requires Proper(s)
    ensures var b := Advance(s.ball);
            var p := if b.x < w / 2.0 then s.user else Track(s.comp, b.y);
            Step(s, w, h, cos, sin).ball.speed ==
              if b.x - b.r < 0.0 || b.x + b.r > w then SERVE_SPEED
              else if Collides(b, p) then s.ball.speed + SPEED_UP
              else s.ball.speed
  {
  }

  /** Scoring: the computer scores when the advanced ball crosses the left goal
      line, failing that the user scores when it crosses the right one; after a
      point the ball is served from the centre at the serving speed. */
  lemma StepScoring(s: State, w: real, h: real, cos: real -> real, sin: real -> real)
    requires Proper(s)
    ensures var x, r := s.ball.x + s.ball.velocityX, Step(s, w, h, cos, sin);
            (r.comp.score == s.comp.score + 1 <==> x - s.ball.r < 0.0) &&
            (r.user.score == s.user.score + 1 <==> !(x - s.ball.r < 0.0) && x + s.ball.r > w) &&
            (r.comp.score == s.comp.score || r.user.score == s.user.score)
    ensures var x, r := s.ball.x + s.ball.velocityX, Step(s, w, h, cos, sin);
            (x - s.ball.r < 0.0 || x + s.ball.r > w) ==>
              r.ball.x == w / 2.0 && r.ball.y == h / 2.0 && r.ball.speed == SERVE_SPEED
  {
    StepPhases(s, w, h, cos, sin);
  }

  /** After a point in a frame without a hit, the serve negates the advanced
      velocityX and keeps velocityY as the wall bounce left it. */
  lemma StepServeAfterMiss(s: State, w: real, h: real, cos: real -> real, sin: real -> real)
    requires Proper(s)
    requires var b := Advance(s.ball);
             GoalOf(b, w) != NoGoal && !Collides(b, if b.x < w / 2.0 then s.user else Track(s.comp, b.y))
    ensures var b, r := Advance(s.ball), Step(s, w, h, cos, sin).ball;
            r.velocityX == -s.ball.velocityX && r.velocityY == WallBounce(b, h).velocityY
  {
    StepPhases(s, w, h, cos, sin);
  }

  /** After a point in a frame with a hit, the serve negates the bounce
      velocityX and keeps the bounce velocityY. */
  lemma StepServeAfterHit(s: State, w: real, h: real, cos: real -> real, sin: real -> real)
    requires Proper(s)
    requires var b := Advance(s.ball);
             GoalOf(b, w) != NoGoal && Collides(b, if b.x < w / 2.0 then s.user else Track(s.comp, b.y))
    ensures var b := Advance(s.ball);
            var p := if b.x < w / 2.0 then s.user else Track(s.comp, b.y);
            var r := Step(s, w, h, cos, sin).ball;
            r.velocityX == -((if b.x < w / 2.0 then 1.0 else -1.0) * s.ball.speed * cos(BounceAngle(b, p))) &&
            r.velocityY == s.ball.speed * sin(BounceAngle(b, p))
  {
    StepPhases(s, w, h, cos, sin);
  }

  /** Without a hit and without a point the ball moves by its velocity, keeps
      its speed and velocityX, and velocityY changes sign exactly when the
      ball crossed the top or bottom wall. */
  lemma StepQuiet(s: State, w: real, h: real, cos: real -> real, sin: real -> real)
    requires Proper(s)
    requires var b := Advance(s.ball);
             !Collides(b, if b.x < w / 2.0 then s.user else Track(s.comp, b.y)) &&
             GoalOf(b, w) == NoGoal
    ensures var b, r := Advance(s.ball), Step(s, w, h, cos, sin).ball;
            r.x == s.ball.x + s.ball.velocityX && r.y == s.ball.y + s.ball.velocityY &&
            r.speed == s.ball.speed && r.velocityX == s.ball.velocityX &&
            r.velocityY == if HitsWall(b, h) then -s.ball.velocityY else s.ball.velocityY
  {
  }

  /** After a hit without a point, velocityX is `direction * speed * cos(angle)`
      with the speed from before the 0.6 increment and direction 1 on the left
      half and -1 on the right. */
  lemma StepHit(s: State, w: real, h: real, cos: real -> real, sin: real -> real)
    requires Proper(s)
    requires var b := Advance(s.ball);
             Collides(b, if b.x < w / 2.0 then s.user else Track(s.comp, b.y)) &&
             GoalOf(b, w) == NoGoal
    ensures var b := Advance(s.ball);
            var p := if b.x < w / 2.0 then s.user else Track(s.comp, b.y);
            var r := Step(s, w, h, cos, sin).ball;
            r.velocityX == (if b.x < w / 2.0 then 1.0 else -1.0) * s.ball.speed * cos(BounceAngle(b, p)) &&
            r.velocityY == s.ball.speed * sin(BounceAngle(b, p)) &&
            r.speed == s.ball.speed + SPEED_UP
  {
    StepPhases(s, w, h, cos, sin);
  }

  /** After a hit without a point the ball has moved by its old velocity:
      the hit changes the velocity but not the position. */
  lemma StepHitPosition(s: State, w: real, h: real, cos: real -> real, sin: real -> real)
    requires Proper(s)
    requires var b := Advance(s.ball);
             Collides(b, if b.x < w / 2.0 then s.user else Track(s.comp, b.y)) &&
             GoalOf(b, w) == NoGoal
    ensures var r := Step(s, w, h, cos, sin).ball;
            r.x == s.ball.x + s.ball.velocityX && r.y == s.ball.y + s.ball.velocityY
  {
    StepPhases(s, w, h, cos, sin);
  }

  /** A colliding ball's centre lies within r of the racket's ends, so the
      normalised hit point stays below 1 + 2r/height in magnitude. */
  lemma CollidePointBound(b: Ball, p: Paddle)
    requires p.height > 0.0 && Collides(b, p)
    ensures -(1.0 + 2.0 * b.r / p.height) < CollidePoint(b, p) < 1.0 + 2.0 * b.r / p.height
  {
    var half := p.height / 2.0;
    var d := b.y - (p.y + half);
    assert -(half + b.r) < d < half + b.r;
    assert CollidePoint(b, p) == d / half;
    var q := 2.0 * b.r / p.height;
    assert q * p.height == 2.0 * b.r;
    assert (1.0 + q) * half == half + b.r;
    DivideExact(half + b.r, 1.0 + q, half);
    DivideStrict(d, half + b.r, half);
    DivideStrict(-(half + b.r), d, half);
    assert -(half + b.r) / half == -((half + b.r) / half);
  }

  lemma DivideExact(a: real, q: real, k: real)
    requires k != 0.0 && a == q * k
    ensures a / k == q
  {
  }

  lemma DivideStrict(a: real, c: real, k: real)
    requires k > 0.0 && a < c
    ensures a / k < c / k
  {
  }

  /** With a racket taller than the ball's diameter the bounce angle lies
      strictly between -90 and 90 degrees. */
  lemma BounceAngleBound(b: Ball, p: Paddle)
    requires p.height > 0.0 && 0.0 <= 2.0 * b.r < p.height && Collides(b, p)
    ensures -PI / 2.0 < BounceAngle(b, p) < PI / 2.0
  {
    CollidePointBound(b, p);
    var cp := CollidePoint(b, p);
    assert 2.0 * b.r / p.height < 1.0 by {
      DivideStrict(2.0 * b.r, p.height, p.height);
      assert p.height / p.height == 1.0;
    }
    assert -2.0 < cp < 2.0;
    assert BounceAngle(b, p) == cp * (PI / 4.0);
  }

  /** When cosine is positive on (-90, 90) degrees and the ball is moving, a
      hit sends the ball rightwards from the user's racket and leftwards from
      the computer's. */
  lemma StepHitDirection(s: State, w: real, h: real, cos: real -> real, sin: real -> real)
    requires Proper(s) && s.ball.speed > 0.0
    requires 0.0 <= 2.0 * s.ball.r < s.user.height && 2.0 * s.ball.r < s.comp.height
    requires forall a: real :: -PI / 2.0 < a < PI / 2.0 ==> cos(a) > 0.0
    requires var b := Advance(s.ball);
             Collides(b, if b.x < w / 2.0 then s.user else Track(s.comp, b.y)) &&
             GoalOf(b, w) == NoGoal
    ensures var b := Advance(s.ball);
            var vx := Step(s, w, h, cos, sin).ball.velocityX;
            (b.x < w / 2.0 ==> vx > 0.0) && (b.x >= w / 2.0 ==> vx < 0.0)
  {
    var b := Advance(s.ball);
    var p := if b.x < w / 2.0 then s.user else Track(s.comp, b.y);
    StepHit(s, w, h, cos, sin);
    BounceAngleBound(b, p);
    var c := cos(BounceAngle(b, p));
    assert c > 0.0;
    assert s.ball.speed * c > 0.0;
  }

  // ---------------------------------------------------------------------
  // Properties of any run

  /** Once at the serving speed, the ball never goes slower, whatever frames
      and pointer moves follow. */
  lemma {:induction false} SpeedFloor(s: State, events: seq<Event>, w: real, h: real,
                                      cos: real -> real, sin: real -> real)
    requires Proper(s) && s.ball.speed >= SERVE_SPEED
    ensures Run(s, events, w, h, cos, sin).ball.speed >= SERVE_SPEED
    decreases |events|
  {
    if events != [] {
      SpeedFloor(Apply(s, events[0], w, h, cos, sin), events[1..], w, h, cos, sin);
    }
  }

  /** Scores never decrease over a run, and the geometry `generateObjs` fixed is kept. */
  lemma {:induction false} RunKeepsScoresAndShape(s: State, events: seq<Event>, w: real, h: real,
                                                  cos: real -> real, sin: real -> real)
    requires Proper(s)
    ensures var r := Run(s, events, w, h, cos, sin);
            r.user.score >= s.user.score && r.comp.score >= s.comp.score &&
            (Shaped(s, w) ==> Shaped(r, w))
    decreases |events|
  {
    if events != [] {
      RunKeepsScoresAndShape(Apply(s, events[0], w, h, cos, sin), events[1..], w, h, cos, sin);
    }
  }

  /** Every point is scored by exactly one side: over a run the scores rise by
      at most the number of frames. */
  lemma {:induction false} PointsPerFrame(s: State, events: seq<Event>, w: real, h: real,
                                          cos: real -> real, sin: real -> real)
    requires Proper(s)
    ensures var r := Run(s, events, w, h, cos, sin);
            (r.user.score - s.user.score) + (r.comp.score - s.comp.score) <= Frames(events)
    decreases |events|
  {
    if events != [] {
      PointsPerFrame(Apply(s, events[0], w, h, cos, sin), events[1..], w, h, cos, sin);
    }
  }

  function Frames(events: seq<Event>): nat
  {
    if events == [] then 0 else (if events[0] == Frame then 1 else 0) + Frames(events[1..])
  }

  // ---------------------------------------------------------------------
  // Scenarios on an 800 x 600 canvas

  /** The first frame moves the ball from (400, 300) to (405, 305) with no hit
      and no point, and the computer racket moves half a pixel down. */
  lemma FirstFrame(cos: real -> real, sin: real -> real)
    ensures var r := Step(Initial(800.0, 600.0), 800.0, 600.0, cos, sin);
            r.ball == Ball(405.0, 305.0, 15.0, 5.0, 5.0, 5.0) &&
            r.comp.y == 200.5 && r.user.score == 0 && r.comp.score == 0
  {
  }

  /** A ball that arrives at (20, 300) against the user's racket at (0, 250)
      is hit: its speed becomes 5.6 and, with cosine positive at -22.5 degrees,
      it leaves rightwards. */
  lemma UserHit(cos: real -> real, sin: real -> real)
    requires cos(-0.5 * PI / 4.0) > 0.0
    ensures var s := State(Ball(25.0, 300.0, 15.0, 5.0, -5.0, 0.0),
                           Paddle(0.0, 250.0, 20.0, 200.0, 0),
                           Paddle(780.0, 200.0, 20.0, 200.0, 0));
            var r := Step(s, 800.0, 600.0, cos, sin);
            r.ball.speed == 5.6 && r.ball.velocityX > 0.0 && r.ball.x == 20.0
  {
  }

  /** A ball whose left edge crosses the left goal line gives the computer a
      point and is served again from (400, 300) at speed 5. */
  lemma CompPoint(s: State, cos: real -> real, sin: real -> real)
    requires Proper(s) && s.ball.x + s.ball.velocityX - s.ball.r < 0.0
    ensures var r := Step(s, 800.0, 600.0, cos, sin);
            r.comp.score == s.comp.score + 1 && r.user.score == s.user.score &&
            r.ball.x == 400.0 && r.ball.y == 300.0 && r.ball.speed == 5.0
  {
  }
}
