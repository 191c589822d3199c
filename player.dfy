/// The panda: its per-tick physics (climb detection, forces, horizontal move,
/// boundary clamp, horizontal platform snapping, vertical move, vertical
/// platform snapping) and the commands the game sends it.
///
/// The pure functions below are the specification of one tick; the class
/// `Player` performs the same steps in place, in the same order, and is
/// proved to agree with them.
module Players {
  import opened Rects
  import opened Objects

  const PLAYER_SIZE := 40
  const PLAYER_SPEED := 5
  const CLIMB_SPEED := 3
  const JUMP_POWER := 15
  /// A rising panda is stopped by a platform's underside only if its top was
  /// already lower than 10 pixels above that underside before the tick.
  const HEAD_MARGIN := 10
  const LEFT_BOUNDARY := 0
  const RIGHT_BOUNDARY := 800

  /// Everything about the panda that one tick reads or writes.
  datatype Body = Body(
    rect: Rect,
    velocityX: int,
    velocityY: int,
    onGround: bool,
    climbing: bool,
    climbDirection: int,   // 0 none, -1 up, 1 down
    facingRight: bool,
    leftBoundary: int,
    rightBoundary: int)

  /// Halving the vertical velocity while idle on bamboo, truncated towards
  /// zero: the sign is kept and the magnitude at least halves.
  function Halved(v: int): (r: int)
    ensures v >= 0 ==> 0 <= r && 2 * r <= v < 2 * r + 2
    ensures v < 0 ==> r <= 0 && 2 * r >= v > 2 * r - 2
  {
    if v >= 0 then v / 2 else -((-v) / 2)
  }

  // ---------------------------------------------------------------- one tick

  /// Gravity when not climbing (and the climb direction is forgotten); a
  /// fixed climbing speed when climbing in a direction; halving otherwise.
  function Forces(b: Body, gravity: int): Body
  {
    if !b.climbing then b.(velocityY := b.velocityY + gravity, climbDirection := 0)
    else if b.climbDirection != 0 then b.(velocityY := b.climbDirection * CLIMB_SPEED)
    else b.(velocityY := Halved(b.velocityY))
  }

  /// The horizontal move followed by the clamp to the level boundaries.
  function MoveAndClamp(b: Body): Body
  {
    var r := b.rect.(x := b.rect.x + b.velocityX);
    if r.Left() < b.leftBoundary then b.(rect := r.(x := b.leftBoundary), velocityX := 0)
    else if r.Right() > b.rightBoundary then b.(rect := r.WithRight(b.rightBoundary), velocityX := 0)
    else b.(rect := r)
  }

  /// The panda faces the way it is moving, and keeps its facing when still.
  function Face(b: Body): Body
  {
    if b.velocityX > 0 then b.(facingRight := true)
    else if b.velocityX < 0 then b.(facingRight := false)
    else b
  }

  /// One platform of the horizontal pass: an overlapping platform pushes the
  /// panda's leading edge back to the platform's near edge.
  function SnapX(r: Rect, vx: int, p: Rect): Rect
  {
    if !Overlaps(r, p) then r
    else if vx > 0 then r.WithRight(p.Left())
    else if vx < 0 then r.(x := p.Right())
    else r
  }

  /// The horizontal pass over the platforms in order; each test sees the
  /// rectangle as earlier platforms left it.
  function ResolveX(r: Rect, vx: int, ps: seq<Rect>): (res: Rect)
    ensures res.y == r.y && res.w == r.w && res.h == r.h
    ensures vx == 0 ==> res == r
    ensures vx > 0 ==> res.x <= r.x
    ensures vx < 0 ==> res.x >= r.x
    ensures res.x == r.x ||
            exists i :: 0 <= i < |ps| && res.x == (if vx > 0 then ps[i].Left() - r.w else ps[i].Right())
    decreases |ps|
  {
    if ps == [] then r else ResolveX(SnapX(r, vx, ps[0]), vx, ps[1..])
  }

  /// The part of the panda the vertical pass changes.
  datatype Vertical = Vertical(rect: Rect, velocityY: int, onGround: bool)

  /// One platform of the vertical pass. It is skipped while climbing unless
  /// falling; a fall lands on the platform, a rise is stopped by it only when
  /// the top was already close to its underside before the tick.
  function SnapY(v: Vertical, p: Rect, climbing: bool, prevY: int): Vertical
  {
    if Overlaps(v.rect, p) && (!climbing || v.velocityY > 0) then
      if v.velocityY > 0 then Vertical(v.rect.WithBottom(p.Top()), 0, true)
      else if v.velocityY < 0 && prevY > p.Bottom() - HEAD_MARGIN then Vertical(v.rect.(y := p.Bottom()), 0, v.onGround)
      else v
    else v
  }

  /// The vertical pass over the platforms in order.
  function ResolveY(v: Vertical, ps: seq<Rect>, climbing: bool, prevY: int): Vertical
    decreases |ps|
  {
    if ps == [] then v else ResolveY(SnapY(v, ps[0], climbing, prevY), ps[1..], climbing, prevY)
  }

  /// Steps before the vertical move: climb detection, forces, horizontal
  /// move, boundary clamp, facing and the horizontal pass.
  function HorizontalPhase(b: Body, gravity: int, platforms: seq<Rect>, bamboo: seq<Rect>): Body
  {
    var b1 := Forces(b.(climbing := OverlapsAny(b.rect, bamboo)), gravity);
    var b2 := Face(MoveAndClamp(b1));
    b2.(rect := ResolveX(b2.rect, b2.velocityX, platforms))
  }

  /// The vertical move and the vertical pass; `prevY` is y before the tick.
  function VerticalPhase(b: Body, platforms: seq<Rect>, prevY: int): Body
  {
    var dropped := b.rect.(y := b.rect.y + b.velocityY);
    if platforms == [] then b.(rect := dropped)
    else
      var v := ResolveY(Vertical(dropped, b.velocityY, false), platforms, b.climbing, prevY);
      b.(rect := v.rect, velocityY := v.velocityY, onGround := v.onGround)
  }

  /// One call of `Player.update`.
  function Tick(b: Body, gravity: int, platforms: seq<Rect>, bamboo: seq<Rect>): Body
  {
    VerticalPhase(HorizontalPhase(b, gravity, platforms, bamboo), platforms, b.rect.y)
  }

  // ---------------------------------------------------------------- commands

  function Jumped(b: Body): Body
  {
    if b.onGround then b.(velocityY := -JUMP_POWER, onGround := false) else b
  }

  function Moved(b: Body, direction: int): Body
  {
    b.(velocityX := direction * PLAYER_SPEED)
  }

  function Climbed(b: Body, direction: int): Body
  {
    if b.climbing then b.(climbDirection := direction, velocityY := direction * CLIMB_SPEED) else b
  }

  function ClimbStopped(b: Body): Body
  {
    if b.climbing then b.(climbDirection := 0, velocityY := 0) else b
  }

  // ---------------------------------------------------------------- the class

  class Player {
    var rect: Rect
    var velocityX: int
    var velocityY: int
    var onGround: bool
    var climbing: bool
    var climbDirection: int
    /// Gravity, added to the vertical velocity each tick off the bamboo.
    const gravity: int
    var facingRight: bool
    var levelLeftBoundary: int
    var levelRightBoundary: int

    function State(): Body
      reads this
    {
      Body(rect, velocityX, velocityY, onGround, climbing, climbDirection,
                   facingRight, levelLeftBoundary, levelRightBoundary)
    }

    constructor (startX: int, startY: int, gravity: int)
      requires gravity > 0
      ensures State() == Body(Rect(startX, startY, PLAYER_SIZE, PLAYER_SIZE), 0, 0,
                                     false, false, 0, true, LEFT_BOUNDARY, RIGHT_BOUNDARY)
      ensures this.gravity == gravity
    {
      rect := Rect(startX, startY, PLAYER_SIZE, PLAYER_SIZE);
      velocityX, velocityY := 0, 0;
      onGround, climbing := false, false;
      climbDirection := 0;
      this.gravity := gravity;
      facingRight := true;
      levelLeftBoundary, levelRightBoundary := LEFT_BOUNDARY, RIGHT_BOUNDARY;
    }

    /// One tick of physics, in the order the game relies on.
    method Update(platforms: seq<Platform>, bamboo: seq<Bamboo>)
      modifies this
      ensures State() == Tick(old(State()), gravity, PlatformRects(platforms), StalkRects(bamboo))
    {
      var prevY := rect.y;
      ghost var b0 := State();
      ghost var ps, bs := PlatformRects(platforms), StalkRects(bamboo);
      DetectClimbing(bamboo);
      ApplyForces();
      assert State() == Forces(b0.(climbing := OverlapsAny(b0.rect, bs)), gravity);
      MoveWithinBoundaries();
      ResolveHorizontal(platforms);
      ghost var b3 := HorizontalPhase(b0, gravity, ps, bs);
      assert State() == b3;
      rect := rect.(y := rect.y + velocityY);
      ResolveVertical(platforms, prevY);
      assert State() == VerticalPhase(b3, ps, prevY);
    }

    /// Climbing is on exactly when the rectangle touches some stalk.
    method DetectClimbing(bamboo: seq<Bamboo>)
      modifies this
      ensures State() == old(State()).(climbing := OverlapsAny(old(rect), StalkRects(bamboo)))
    {
      climbing := false;
      if |bamboo| > 0 {
        var i := 0;
        while i < |bamboo|
          invariant 0 <= i <= |bamboo|
          invariant State() == old(State()).(climbing := false)
          invariant forall j :: 0 <= j < i ==> !Overlaps(rect, bamboo[j].rect)
        {
          if Overlaps(rect, bamboo[i].rect) {
            climbing := true;
            break;
          }
          i := i + 1;
        }
      }
    }

    method ApplyForces()
      modifies this
      ensures State() == Forces(old(State()), gravity)
    {
      if !climbing {
        velocityY := velocityY + gravity;
        climbDirection := 0;
      } else if climbDirection != 0 {
        velocityY := climbDirection * CLIMB_SPEED;
      } else {
        velocityY := Halved(velocityY);
      }
    }

    method MoveWithinBoundaries()
      modifies this
      ensures State() == Face(MoveAndClamp(old(State())))
    {
      rect := rect.(x := rect.x + velocityX);
      if rect.Left() < levelLeftBoundary {
        rect := rect.(x := levelLeftBoundary);
        velocityX := 0;
      } else if rect.Right() > levelRightBoundary {
        rect := rect.WithRight(levelRightBoundary);
        velocityX := 0;
      }
      if velocityX > 0 {
        facingRight := true;
      } else if velocityX < 0 {
        facingRight := false;
      }
    }

    method ResolveHorizontal(platforms: seq<Platform>)
      modifies this
      ensures State() == old(State()).(rect := ResolveX(old(rect), velocityX, PlatformRects(platforms)))
    {
      ghost var ps := PlatformRects(platforms);
      if |platforms| > 0 {
        for k := 0 to |platforms|
          invariant State() == old(State()).(rect := rect)
          invariant ResolveX(rect, velocityX, ps[k..]) == ResolveX(old(rect), velocityX, ps)
        {
          if Overlaps(rect, platforms[k].rect) {
            if velocityX > 0 {
              rect := rect.WithRight(platforms[k].rect.Left());
            } else if velocityX < 0 {
              rect := rect.(x := platforms[k].rect.Right());
            }
          }
          assert ps[k..][1..] == ps[k + 1..];
        }
      }
    }

    method ResolveVertical(platforms: seq<Platform>, prevY: int)
      modifies this
      ensures var v := ResolveY(Vertical(old(rect), old(velocityY), false), PlatformRects(platforms), climbing, prevY);
              State() == if platforms == [] then old(State())
                         else old(State()).(rect := v.rect, velocityY := v.velocityY, onGround := v.onGround)
    {
      ghost var ps := PlatformRects(platforms);
      if |platforms| > 0 {
        onGround := false;
        for k := 0 to |platforms|
          invariant State() == old(State()).(rect := rect, velocityY := velocityY, onGround := onGround)
          invariant ResolveY(Vertical(rect, velocityY, onGround), ps[k..], climbing, prevY) ==
                    ResolveY(Vertical(old(rect), old(velocityY), false), ps, climbing, prevY)
        {
          var p := platforms[k].rect;
          if Overlaps(rect, p) {
            if !climbing || velocityY > 0 {
              if velocityY > 0 {
                rect := rect.WithBottom(p.Top());
                velocityY := 0;
                onGround := true;
              } else if velocityY < 0 {
                if prevY > p.Bottom() - HEAD_MARGIN {
                  rect := rect.(y := p.Bottom());
                  velocityY := 0;
                }
              }
            }
          }
          assert ps[k..][1..] == ps[k + 1..];
        }
      }
    }

    /// The handler that collisions used to go through; `Update` resolves them.
    method HandlePlatformCollisions(platforms: seq<Platform>)
      ensures unchanged(this)
    {
    }

    method Jump()
      modifies this
      ensures State() == Jumped(old(State()))
    {
      if onGround {
        velocityY := -JUMP_POWER;
        onGround := false;
      }
    }

    method Move(direction: int)
      modifies this
      ensures State() == Moved(old(State()), direction)
    {
      velocityX := direction * PLAYER_SPEED;
    }

    method Climb(direction: int)
      modifies this
      ensures State() == Climbed(old(State()), direction)
    {
      if climbing {
        climbDirection := direction;
        velocityY := direction * CLIMB_SPEED;
      }
    }

    method StopClimbing()
      modifies this
      ensures State() == ClimbStopped(old(State()))
    {
      if climbing {
        climbDirection := 0;
        velocityY := 0;
      }
    }

    method SetLevelBoundaries(left: int, right: int)
      modifies this
      ensures State() == old(State()).(leftBoundary := left, rightBoundary := right)
    {
      levelLeftBoundary := left;
      levelRightBoundary := right;
    }
  }
}
