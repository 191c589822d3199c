/// The level's entities: static platforms and bamboo stalks, cages that the
/// panda opens, and enemies that patrol a horizontal range.
module Objects {
  import opened Rects

  const BAMBOO_WIDTH := 10
  const CAGE_SIZE := 50
  const ENEMY_WIDTH := 30
  const ENEMY_HEIGHT := 50
  const ENEMY_SPEED := 2

  /// A solid block. Its rectangle never changes after construction.
  class Platform {
    const rect: Rect

    constructor (x: int, y: int, width: int, height: int)
      ensures rect == Rect(x, y, width, height)
    {
      rect := Rect(x, y, width, height);
    }
  }

  /// A climbable stalk, always 10 pixels wide.
  class Bamboo {
    const rect: Rect

    constructor (x: int, y: int, height: int)
      ensures rect == Rect(x, y, BAMBOO_WIDTH, height)
    {
      rect := Rect(x, y, BAMBOO_WIDTH, height);
    }
  }

  /// What an observer can see of a cage.
  datatype CageState = CageState(rect: Rect, animalType: string, isOpen: bool)

  /// The effect of `open_cage` on a cage's visible state.
  function Opened(c: CageState): (r: CageState)
    ensures r.isOpen
    ensures r.rect == c.rect && r.animalType == c.animalType
  {
    c.(isOpen := true)
  }

  /// Opening is idempotent, and an open cage is a fixed point of opening:
  /// nothing closes a cage again.
  lemma OpenedIdempotent(c: CageState)
    ensures Opened(Opened(c)) == Opened(c)
    ensures c.isOpen ==> Opened(c) == c
  {
  }

  /// A 50x50 cage holding an animal; it starts closed.
  class AnimalCage {
    const rect: Rect
    const animalType: string
    var isOpen: bool

    function State(): CageState
      reads this
    {
      CageState(rect, animalType, isOpen)
    }

    constructor (x: int, y: int, animalType: string := "generic")
      ensures State() == CageState(Rect(x, y, CAGE_SIZE, CAGE_SIZE), animalType, false)
    {
      rect := Rect(x, y, CAGE_SIZE, CAGE_SIZE);
      this.animalType := animalType;
      isOpen := false;
    }

    method OpenCage()
      modifies this
      ensures State() == Opened(old(State()))
    {
      isOpen := true;
    }
  }

  /// What an observer can see of an enemy: its 30x50 rectangle, its patrol
  /// bounds (world x-coordinates), its speed and its direction (1 right, -1 left).
  datatype EnemyState = EnemyState(rect: Rect, patrolStart: int, patrolEnd: int, speed: int, direction: int)

  /// One patrol step of `Enemy.update`: move by speed * direction, then turn
  /// left at or past the end bound, else right at or before the start bound.
  function Patrol(e: EnemyState): EnemyState
  {
    var moved := e.rect.(x := e.rect.x + e.speed * e.direction);
    var direction :=
      if moved.x >= e.patrolEnd then -1
      else if moved.x <= e.patrolStart then 1
      else e.direction;
    e.(rect := moved, direction := direction)
  }

  /// The patrol step moves horizontally by exactly one step, leaves y, the
  /// size and the bounds alone, and sets the direction as the bounds demand.
  lemma PatrolStep(e: EnemyState)
    ensures Patrol(e).rect == e.rect.(x := e.rect.x + e.speed * e.direction)
    ensures Patrol(e).patrolStart == e.patrolStart && Patrol(e).patrolEnd == e.patrolEnd
    ensures Patrol(e).speed == e.speed
    ensures Patrol(e).rect.x >= e.patrolEnd ==> Patrol(e).direction == -1
    ensures e.patrolStart < e.patrolEnd && Patrol(e).rect.x <= e.patrolStart ==> Patrol(e).direction == 1
    ensures e.patrolStart < Patrol(e).rect.x < e.patrolEnd ==> Patrol(e).direction == e.direction
  {
  }

  /// The enemy after n patrol steps.
  function PatrolN(e: EnemyState, n: nat): (r: EnemyState)
    ensures r.patrolStart == e.patrolStart && r.patrolEnd == e.patrolEnd && r.speed == e.speed
    ensures r.rect.y == e.rect.y && r.rect.w == e.rect.w && r.rect.h == e.rect.h
    decreases n
  {
    if n == 0 then e else PatrolN(Patrol(e), n - 1)
  }

  /// The state a freshly constructed enemy is in.
  function NewEnemy(x: int, y: int, patrolStart: int, patrolEnd: int): EnemyState
  {
    EnemyState(Rect(x, y, ENEMY_WIDTH, ENEMY_HEIGHT), patrolStart, patrolEnd, ENEMY_SPEED, 1)
  }

  /// The invariant of a patrol: the direction is a unit, the enemy lies less
  /// than one step beyond either bound, and it is heading towards a bound it
  /// has not yet reached.
  predicate Patrolling(e: EnemyState)
  {
    e.speed > 0 && e.patrolStart < e.patrolEnd &&
    (e.direction == 1 || e.direction == -1) &&
    e.patrolStart - e.speed < e.rect.x < e.patrolEnd + e.speed &&
    (e.direction == 1 ==> e.rect.x < e.patrolEnd) &&
    (e.direction == -1 ==> e.rect.x > e.patrolStart)
  }

  lemma PatrolKeepsPatrolling(e: EnemyState)
    requires Patrolling(e)
    ensures Patrolling(Patrol(e))
  {
  }

  /// An enemy that starts strictly inside its range heading right never
  /// overshoots either bound by a whole step, however long it patrols.
  lemma {:induction false} PatrolStaysNearRange(e: EnemyState, n: nat)
    requires e.speed > 0 && e.patrolStart < e.rect.x < e.patrolEnd && e.direction == 1
    ensures Patrolling(PatrolN(e, n))
    ensures e.patrolStart - e.speed < PatrolN(e, n).rect.x < e.patrolEnd + e.speed
  {
    PatrollingForever(e, n);
  }

  lemma {:induction false} PatrollingForever(e: EnemyState, n: nat)
    requires Patrolling(e)
    ensures Patrolling(PatrolN(e, n))
    decreases n
  {
    if n > 0 {
      PatrolKeepsPatrolling(e);
      PatrollingForever(Patrol(e), n - 1);
    }
  }

  /// The stronger invariant of an enemy whose start position and bounds lie
  /// on its grid of steps of 2 pixels: it then meets each bound exactly and
  /// never leaves the closed range [patrolStart, patrolEnd].
  predicate PatrollingOnGrid(e: EnemyState)
  {
    Patrolling(e) && e.speed == ENEMY_SPEED &&
    e.patrolStart <= e.rect.x <= e.patrolEnd &&
    (e.rect.x - e.patrolStart) % ENEMY_SPEED == 0 &&
    (e.patrolEnd - e.rect.x) % ENEMY_SPEED == 0
  }

  lemma PatrolKeepsGrid(e: EnemyState)
    requires PatrollingOnGrid(e)
    ensures PatrollingOnGrid(Patrol(e))
  {
    PatrolKeepsPatrolling(e);
  }

  /// Once on the grid, an enemy stays within its closed patrol range for ever.
  lemma {:induction false} PatrolStaysInRange(e: EnemyState, n: nat)
    requires PatrollingOnGrid(e)
    ensures PatrollingOnGrid(PatrolN(e, n))
    ensures e.patrolStart <= PatrolN(e, n).rect.x <= e.patrolEnd
    decreases n
  {
    if n > 0 {
      PatrolKeepsGrid(e);
      PatrolStaysInRange(Patrol(e), n - 1);
    }
  }

  /// A 30x50 enemy patrolling between two world x-coordinates at speed 2.
  class Enemy {
    var rect: Rect
    const patrolStart: int
    const patrolEnd: int
    const speed: int
    var direction: int

    function State(): EnemyState
      reads this
    {
      EnemyState(rect, patrolStart, patrolEnd, speed, direction)
    }

    constructor (x: int, y: int, patrolStart: int, patrolEnd: int)
      ensures State() == NewEnemy(x, y, patrolStart, patrolEnd)
    {
      rect := Rect(x, y, ENEMY_WIDTH, ENEMY_HEIGHT);
      this.patrolStart := patrolStart;
      this.patrolEnd := patrolEnd;
      speed := ENEMY_SPEED;
      direction := 1;
    }

    method Update()
      modifies this
      ensures State() == Patrol(old(State()))
    {
      rect := rect.(x := rect.x + speed * direction);
      if rect.x >= patrolEnd {
        direction := -1;
      } else if rect.x <= patrolStart {
        direction := 1;
      }
    }
  }

  /// The sequence of `f` applied to each element of `s`, in order.
  function Map<A, B>(s: seq<A>, f: A -> B): (r: seq<B>)
    ensures |r| == |s| && forall i :: 0 <= i < |s| ==> r[i] == f(s[i])
  {
    seq(|s|, i requires 0 <= i < |s| => f(s[i]))
  }

  /// The rectangles of a sequence of platforms, in order.
  function PlatformRects(ps: seq<Platform>): seq<Rect>
  {
    Map(ps, (p: Platform) => p.rect)
  }

  /// The rectangles of a sequence of bamboo stalks, in order.
  function StalkRects(bs: seq<Bamboo>): seq<Rect>
  {
    Map(bs, (b: Bamboo) => b.rect)
  }

  /// The visible states of a sequence of cages, in order.
  function CageStates(cs: seq<AnimalCage>): (rs: seq<CageState>)
    reads cs
    ensures |rs| == |cs| && forall i :: 0 <= i < |cs| ==> rs[i] == cs[i].State()
  {
    seq(|cs|, i requires 0 <= i < |cs| reads cs => cs[i].State())
  }

  /// The visible states of a sequence of enemies, in order.
  function EnemyStates(es: seq<Enemy>): (rs: seq<EnemyState>)
    reads es
    ensures |rs| == |es| && forall i :: 0 <= i < |es| ==> rs[i] == es[i].State()
  {
    seq(|es|, i requires 0 <= i < |es| reads es => es[i].State())
  }
}
