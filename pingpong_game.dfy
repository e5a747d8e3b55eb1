/** The `PingPong` object: the ball and the two rackets are fields that its
    methods update in place, on a canvas whose size is fixed at construction.
    Each method is proved to leave the state the value-level model in
    PingPongModel describes. */
module PingPongGame {
  import opened PingPongModel

  class Game {
    /** Canvas width and height. */
    const W: real
    const H: real

    var ball: Ball
    var user: Paddle
    var comp: Paddle

    /** The current state as a value. */
    function Snapshot(): State
      reads this
    {
      State(ball, user, comp)
    }

    /** The geometry fixed by `generateObjs`, and the ball at least at the
        serving speed. */
    ghost predicate Valid()
      reads this
    {
      Shaped(Snapshot(), W) && ball.speed >= SERVE_SPEED
    }

    /** The constructor without the canvas lookup and the pointer listener. */
    constructor (width: nat, height: nat)
      ensures W == width as real && H == height as real
      ensures Snapshot() == Initial(W, H) && Valid()
    {
      W := width as real;
      H := height as real;
      new;
      GenerateObjs();
    }

    /** `generateObjs`: both rackets centred vertically at the two ends, the
        ball at the centre with speed 5 and velocity (5, 5), both scores 0. */
    method GenerateObjs()
      modifies this
      ensures Snapshot() == Initial(W, H) && Valid()
    {
      user := Paddle(0.0, H / 2.0 - 200.0 / 2.0, 20.0, 200.0, 0);
      comp := Paddle(W - 20.0, H / 2.0 - 200.0 / 2.0, 20.0, 200.0, 0);
      ball := Ball(W / 2.0, H / 2.0, 15.0, 5.0, 5.0, 5.0);
    }

    /** `moveRacket`, with the pointer's clientY and the canvas's top edge
        passed in: the user's racket is centred on the pointer, nothing else moves. */
    method MoveRacket(clientY: real, rectTop: real)
      requires Valid()
      modifies this`user
      ensures Valid()
      ensures user == old(user).(y := clientY - rectTop - old(user).height / 2.0)
      ensures Snapshot() == PingPongModel.MoveRacket(old(Snapshot()), clientY, rectTop)
    {
      user := user.(y := clientY - rectTop - user.height / 2.0);
    }

    /** `reset`: the ball back at the canvas centre at speed 5 with velocityX
        negated; its velocityY and radius, both rackets and both scores unchanged. */
    method Reset()
      requires Valid()
      modifies this`ball
      ensures Valid()
      ensures ball.x == W / 2.0 && ball.y == H / 2.0 && ball.speed == SERVE_SPEED
      ensures ball.velocityX == -old(ball).velocityX
      ensures ball.velocityY == old(ball).velocityY && ball.r == old(ball).r
      ensures ball == Serve(old(ball), W, H)
    {
      ball := ball.(x := W / 2.0);
      ball := ball.(y := H / 2.0);
      ball := ball.(speed := 5.0);
      ball := ball.(velocityX := -ball.velocityX);
    }

    /** The branch of `update` where the ball hit `player`: the bounce angle
        follows from where on the racket it struck, velocityX is
        `direction * speed * cos(angle)` with direction pointing away from
        the racket, and the speed rises by 0.6 after the new velocity is
        computed. */
    method Hit(player: Paddle, cos: real -> real, sin: real -> real)
      requires Valid() && player.height != 0.0
      modifies this`ball
      ensures Valid()
      ensures ball.velocityX == (if old(ball).x < W / 2.0 then 1.0 else -1.0) * old(ball).speed * cos(BounceAngle(old(ball), player))
      ensures ball.velocityY == old(ball).speed * sin(BounceAngle(old(ball), player))
      ensures ball.speed == old(ball).speed + SPEED_UP
      ensures ball == Deflect(old(ball), player, W, cos, sin)
    {
      var collidePoint := ball.y - (player.y + player.height / 2.0);
      // normalisation
      collidePoint := collidePoint / (player.height / 2.0);
      var angleRadian := collidePoint * PI / 4.0;
      var direction := if ball.x < W / 2.0 then 1.0 else -1.0;
      ball := ball.(velocityX := direction * ball.speed * cos(angleRadian));
      ball := ball.(velocityY := ball.speed * sin(angleRadian));
      ball := ball.(speed := ball.speed + 0.6);
    }

    /** The end of `update`: a point for the computer when the ball's left
        edge is past the left goal line, failing that a point for the user
        when its right edge is past the right one, each followed by `reset`. */
    method UpdateScore()
      requires Valid()
      modifies this`user, this`comp, this`ball
      ensures Valid()
      ensures Snapshot() == Score(old(Snapshot()), W, H)
    {
      if ball.x - ball.r < 0.0 {
        comp := comp.(score := comp.score + 1);
        Reset();
      } else if ball.x + ball.r > W {
        user := user.(score := user.score + 1);
        Reset();
      }
    }

    /** `update`, with Math.cos and Math.sin passed in: one frame of the game.
        Its two last phases are the methods Hit and UpdateScore. */
    method Update(cos: real -> real, sin: real -> real)
      requires Valid()
      modifies this
      ensures Valid()
      ensures Snapshot() == Step(old(Snapshot()), W, H, cos, sin)
    {
      ghost var start := Snapshot();
      ball := ball.(x := ball.x + ball.velocityX);
      ball := ball.(y := ball.y + ball.velocityY);
      assert ball == Advance(start.ball);
      // the computer's racket follows the ball
      var compLevel := 0.1;
      comp := comp.(y := comp.y + (ball.y - (comp.y + comp.height / 2.0)) * compLevel);
      assert comp == Track(start.comp, ball.y);

      // the top and bottom walls
      if ball.y + ball.r > H || ball.y - ball.r < 0.0 {
        ball := ball.(velocityY := -ball.velocityY);
      }
      assert ball == WallBounce(Advance(start.ball), H);
      ghost var bounced := ball;
      var player := if ball.x < W / 2.0 then user else comp;
      assert player == ActivePaddle(bounced, W, start.user, comp);
      if Collides(ball, player) {
        // the ball hit the player's racket
        Hit(player, cos, sin);
      }
      assert ball == if Collides(bounced, player) then Deflect(bounced, player, W, cos, sin) else bounced;
      assert Step(start, W, H, cos, sin) == Score(Snapshot(), W, H);
      UpdateScore();
    }
  }
}
