/// What one physics tick of the panda guarantees.
module PlayerProperties {
  import opened Rects
  import opened Players

  /// Right after the clamp the panda lies within the level boundaries (when
  /// they are at least its width apart); a clamp stops horizontal motion, and
  /// the move never touches y.
  lemma ClampKeepsInside(b: Body)
    requires b.rightBoundary - b.leftBoundary >= b.rect.w
    ensures MoveAndClamp(b).rect.Left() >= b.leftBoundary
    ensures MoveAndClamp(b).rect.Right() <= b.rightBoundary
    ensures MoveAndClamp(b).rect.x != b.rect.x + b.velocityX ==> MoveAndClamp(b).velocityX == 0
    ensures MoveAndClamp(b).rect.y == b.rect.y
  {
  }

  /// Climb detection: climbing after a tick exactly when the rectangle before
  /// the tick touches some stalk, so never without bamboo.
  lemma TickClimbing(b: Body, gravity: int, platforms: seq<Rect>, bamboo: seq<Rect>)
    ensures Tick(b, gravity, platforms, bamboo).climbing <==>
            exists i :: 0 <= i < |bamboo| && Overlaps(b.rect, bamboo[i])
    ensures bamboo == [] ==> !Tick(b, gravity, platforms, bamboo).climbing
  {
  }

  /// Off the bamboo gravity accumulates and the climb direction is dropped;
  /// on it, a set direction replaces the vertical velocity by the climbing
  /// speed instead of adding to it.
  lemma ForcesEffect(b: Body, gravity: int)
    ensures !b.climbing ==> Forces(b, gravity).velocityY == b.velocityY + gravity &&
                            Forces(b, gravity).climbDirection == 0
    ensures b.climbing && b.climbDirection != 0 ==>
              Forces(b, gravity).velocityY == b.climbDirection * CLIMB_SPEED &&
              Forces(b, gravity).climbDirection == b.climbDirection
    ensures Forces(b, gravity).rect == b.rect && Forces(b, gravity).velocityX == b.velocityX
  {
  }

  /// A vertical pass that starts without vertical velocity changes nothing.
  lemma {:induction false} ResolveYAtRest(v: Vertical, ps: seq<Rect>, climbing: bool, prevY: int)
    requires v.velocityY == 0
    ensures ResolveY(v, ps, climbing, prevY) == v
    decreases |ps|
  {
    if ps != [] {
      ResolveYAtRest(v, ps[1..], climbing, prevY);
    }
  }

  /// Every snap zeroes the vertical velocity, so at most one platform moves
  /// the panda vertically per tick: the pass either changes nothing or ends
  /// exactly as that single platform's snap of the original state.
  lemma {:induction false} ResolveYSnapsAtMostOnce(v: Vertical, ps: seq<Rect>, climbing: bool, prevY: int)
    ensures var r := ResolveY(v, ps, climbing, prevY);
            r == v ||
            (r.velocityY == 0 && exists i :: 0 <= i < |ps| && r == SnapY(v, ps[i], climbing, prevY))
    decreases |ps|
  {
    if ps != [] {
      var s := SnapY(v, ps[0], climbing, prevY);
      if s == v {
        ResolveYSnapsAtMostOnce(v, ps[1..], climbing, prevY);
        var r := ResolveY(v, ps[1..], climbing, prevY);
        if r != v {
          var i :| 0 <= i < |ps[1..]| && r == SnapY(v, ps[1..][i], climbing, prevY);
          assert ps[1..][i] == ps[i + 1];
        }
      } else {
        ResolveYAtRest(s, ps[1..], climbing, prevY);
      }
    }
  }

  /// While climbing and not moving down, the vertical pass is skipped.
  lemma {:induction false} ResolveYSkippedWhileClimbing(v: Vertical, ps: seq<Rect>, prevY: int)
    requires v.velocityY <= 0
    ensures ResolveY(v, ps, true, prevY) == v
    decreases |ps|
  {
    if ps != [] {
      ResolveYSkippedWhileClimbing(v, ps[1..], prevY);
    }
  }

  /// A falling panda that overlaps some platform lands on the first one in
  /// order it overlaps: bottom on that platform's top, no vertical velocity,
  /// on the ground. Climbing does not prevent landing.
  lemma {:induction false} Landing(v: Vertical, ps: seq<Rect>, climbing: bool, prevY: int)
    requires v.velocityY > 0 && OverlapsAny(v.rect, ps)
    ensures exists i :: 0 <= i < |ps| && Overlaps(v.rect, ps[i]) &&
                        (forall j :: 0 <= j < i ==> !Overlaps(v.rect, ps[j])) &&
                        ResolveY(v, ps, climbing, prevY) == Vertical(v.rect.WithBottom(ps[i].Top()), 0, true)
    decreases |ps|
  {
    if Overlaps(v.rect, ps[0]) {
      ResolveYAtRest(SnapY(v, ps[0], climbing, prevY), ps[1..], climbing, prevY);
    } else {
      var k :| 0 <= k < |ps| && Overlaps(v.rect, ps[k]);
      assert ps[1..][k - 1] == ps[k];
      Landing(v, ps[1..], climbing, prevY);
      var i :| 0 <= i < |ps[1..]| && Overlaps(v.rect, ps[1..][i]) &&
               (forall j :: 0 <= j < i ==> !Overlaps(v.rect, ps[1..][j])) &&
               ResolveY(v, ps[1..], climbing, prevY) == Vertical(v.rect.WithBottom(ps[1..][i].Top()), 0, true);
      assert ps[1..][i] == ps[i + 1];
      forall j | 0 <= j < i + 1
        ensures !Overlaps(v.rect, ps[j])
      {
        if j > 0 {
          assert ps[1..][j - 1] == ps[j];
        }
      }
    }
  }

  /// A pass that starts off the ground ends on the ground only by landing: the
  /// panda was falling, has stopped, and its bottom sits on some platform's top.
  lemma OnGroundOnlyByLanding(v: Vertical, ps: seq<Rect>, climbing: bool, prevY: int)
    requires !v.onGround
    ensures var r := ResolveY(v, ps, climbing, prevY);
            r.onGround ==> v.velocityY > 0 && r.velocityY == 0 &&
                           exists i :: 0 <= i < |ps| && r.rect.Bottom() == ps[i].Top()
  {
    ResolveYSnapsAtMostOnce(v, ps, climbing, prevY);
  }

  /// A rising panda is pushed down only by a platform whose underside its top
  /// was already close to before the tick, and then to exactly that underside.
  lemma RisingBlockedOnlyNearUnderside(v: Vertical, ps: seq<Rect>, climbing: bool, prevY: int)
    requires v.velocityY < 0
    ensures var r := ResolveY(v, ps, climbing, prevY);
            r == v ||
            (!climbing && r.velocityY == 0 && r.onGround == v.onGround &&
             exists i :: 0 <= i < |ps| && Overlaps(v.rect, ps[i]) &&
                         prevY > ps[i].Bottom() - HEAD_MARGIN && r.rect == v.rect.(y := ps[i].Bottom()))
  {
    ResolveYSnapsAtMostOnce(v, ps, climbing, prevY);
  }

  /// With no platforms, a tick leaves `onGround` as it was: the reset sits
  /// inside the platform check.
  lemma TickWithoutPlatformsKeepsGround(b: Body, gravity: int, bamboo: seq<Rect>)
    ensures Tick(b, gravity, [], bamboo).onGround == b.onGround
  {
  }

  /// With platforms, a tick ends on the ground only by landing on one.
  lemma TickOnGroundOnlyByLanding(b: Body, gravity: int, platforms: seq<Rect>, bamboo: seq<Rect>)
    requires platforms != []
    ensures var r := Tick(b, gravity, platforms, bamboo);
            r.onGround ==> r.velocityY == 0 && exists i :: 0 <= i < |platforms| && r.rect.Bottom() == platforms[i].Top()
  {
    var b3 := HorizontalPhase(b, gravity, platforms, bamboo);
    var dropped := b3.rect.(y := b3.rect.y + b3.velocityY);
    OnGroundOnlyByLanding(Vertical(dropped, b3.velocityY, false), platforms, b3.climbing, b.rect.y);
  }

  /// A tick keeps the panda's size.
  lemma TickKeepsSize(b: Body, gravity: int, platforms: seq<Rect>, bamboo: seq<Rect>)
    ensures Tick(b, gravity, platforms, bamboo).rect.w == b.rect.w
    ensures Tick(b, gravity, platforms, bamboo).rect.h == b.rect.h
  {
    var b3 := HorizontalPhase(b, gravity, platforms, bamboo);
    assert b3.rect.w == b.rect.w && b3.rect.h == b.rect.h;
    var dropped := b3.rect.(y := b3.rect.y + b3.velocityY);
    ResolveYSnapsAtMostOnce(Vertical(dropped, b3.velocityY, false), platforms, b3.climbing, b.rect.y);
  }

  /// A tick never moves the boundaries.
  lemma TickKeepsBoundaries(b: Body, gravity: int, platforms: seq<Rect>, bamboo: seq<Rect>)
    ensures Tick(b, gravity, platforms, bamboo).leftBoundary == b.leftBoundary
    ensures Tick(b, gravity, platforms, bamboo).rightBoundary == b.rightBoundary
  {
    var b3 := HorizontalPhase(b, gravity, platforms, bamboo);
    assert b3.leftBoundary == b.leftBoundary && b3.rightBoundary == b.rightBoundary;
  }

  /// A panda at rest on a platform, off the bamboo, inside the level, with no
  /// input, is still on the ground with no vertical velocity after one tick
  /// (for a gravity step no larger than its own height).
  lemma RestingStaysOnGround(b: Body, gravity: int, platforms: seq<Rect>, bamboo: seq<Rect>, k: nat)
    requires 0 < gravity <= b.rect.h
    requires k < |platforms| && platforms[k].h > 0
    requires b.rect.Bottom() == platforms[k].Top()
    requires b.rect.x < platforms[k].Right() && platforms[k].Left() < b.rect.Right()
    requires b.velocityX == 0 && b.velocityY == 0
    requires b.leftBoundary <= b.rect.Left() && b.rect.Right() <= b.rightBoundary
    requires !OverlapsAny(b.rect, bamboo)
    ensures Tick(b, gravity, platforms, bamboo).onGround
    ensures Tick(b, gravity, platforms, bamboo).velocityY == 0
  {
    var b3 := HorizontalPhase(b, gravity, platforms, bamboo);
    assert b3 == b.(climbing := false, velocityY := gravity, climbDirection := 0);
    assert Overlaps(b.rect.(y := b.rect.y + gravity), platforms[k]);
    VerticalPhaseLands(b3, platforms, b.rect.y, k);
  }

  /// A tick that moves a panda at rest by 0 pixels, standing on a platform
  /// but overlapping none, leaves it in place and clears its ground flag:
  /// the vertical pass first clears the flag and only a fall into a platform
  /// sets it again.
  lemma RestingWithoutDropLeavesGround(b: Body, platforms: seq<Rect>, bamboo: seq<Rect>)
    requires platforms != []
    requires b.velocityX == 0 && b.velocityY == 0
    requires b.leftBoundary <= b.rect.Left() && b.rect.Right() <= b.rightBoundary
    requires !OverlapsAny(b.rect, bamboo) && !OverlapsAny(b.rect, platforms)
    ensures !Tick(b, 0, platforms, bamboo).onGround
    ensures Tick(b, 0, platforms, bamboo).rect == b.rect
  {
    var b3 := HorizontalPhase(b, 0, platforms, bamboo);
    assert b3 == b.(climbing := false, climbDirection := 0);
    ResolveYAtRest(Vertical(b3.rect, 0, false), platforms, false, b.rect.y);
  }

  /// The vertical phase of a falling panda that the move brings into some
  /// platform ends on the ground, at rest.
  lemma VerticalPhaseLands(b: Body, platforms: seq<Rect>, prevY: int, k: nat)
    requires b.velocityY > 0 && k < |platforms|
    requires Overlaps(b.rect.(y := b.rect.y + b.velocityY), platforms[k])
    ensures VerticalPhase(b, platforms, prevY).onGround
    ensures VerticalPhase(b, platforms, prevY).velocityY == 0
  {
    var v := Vertical(b.rect.(y := b.rect.y + b.velocityY), b.velocityY, false);
    assert OverlapsAny(v.rect, platforms);
    LandingStops(v, platforms, b.climbing, prevY);
    var r := ResolveY(v, platforms, b.climbing, prevY);
    assert VerticalPhase(b, platforms, prevY) == b.(rect := r.rect, velocityY := r.velocityY, onGround := r.onGround);
  }

  /// A landing leaves the panda on the ground at rest.
  lemma LandingStops(v: Vertical, ps: seq<Rect>, climbing: bool, prevY: int)
    requires v.velocityY > 0 && OverlapsAny(v.rect, ps)
    ensures ResolveY(v, ps, climbing, prevY).onGround && ResolveY(v, ps, climbing, prevY).velocityY == 0
  {
    Landing(v, ps, climbing, prevY);
  }

  /// The commands: a jump needs the ground and leaves it with the jump
  /// velocity; climbing commands do nothing off the bamboo.
  lemma CommandsGuarded(b: Body, direction: int)
    ensures !b.onGround ==> Jumped(b) == b
    ensures b.onGround ==> Jumped(b).velocityY == -JUMP_POWER && !Jumped(b).onGround
    ensures Moved(b, direction).velocityX == direction * PLAYER_SPEED
    ensures !b.climbing ==> Climbed(b, direction) == b && ClimbStopped(b) == b
    ensures b.climbing ==> Climbed(b, direction).velocityY == direction * CLIMB_SPEED &&
                           ClimbStopped(b).velocityY == 0 && ClimbStopped(b).climbDirection == 0
  {
  }
}
