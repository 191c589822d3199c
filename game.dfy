/// The game: a state machine over MENU, PLAYING, PAUSED, LEVEL_COMPLETE and
/// GAME_OVER driven by key events, and the per-tick rule that moves the level
/// and the panda, opens the cages the panda touches and decides between
/// completing the level and losing.
///
/// A `Session` is everything the game keeps between frames; the pure
/// functions on it specify the class `Game`, whose methods are proved to
/// agree with them.
module Games {
  import opened Rects
  import opened Objects
  import opened Players
  import opened Levels

  const TOTAL_LEVELS := 2
  /// Where the panda is put at the start, on a level change and on restart:
  /// (START_X, window height - START_HEIGHT).
  const START_X := 100
  const START_HEIGHT := 100

  datatype GameState = Menu | Playing | Paused | LevelComplete | GameOver

  /// The keys the event handler distinguishes; every other key is `OtherKey`.
  datatype Key = Return | Space | KeyP | Up | Down | OtherKey

  /// The window-system events, abstracted: a quit request, a key going down
  /// or up, and anything else.
  datatype Event = Quit | KeyDown(key: Key) | KeyUp(key: Key) | OtherEvent

  /// Which horizontal arrow keys are held down when the events have been read.
  datatype Held = Held(left: bool, right: bool)

  datatype Session = Session(state: GameState, currentLevel: int, body: Body, world: World)

  /// The session a new game starts in: the menu, level 1 built, the panda
  /// freshly made at its start position.
  function InitialSession(windowHeight: int): Session
  {
    Session(Menu, 1,
            Body(Rect(START_X, windowHeight - START_HEIGHT, PLAYER_SIZE, PLAYER_SIZE), 0, 0,
                 false, false, 0, true, LEFT_BOUNDARY, RIGHT_BOUNDARY),
            Layout(1))
  }

  /// The panda put back at the start position; only x and y change.
  function Repositioned(b: Body, windowHeight: int): (r: Body)
    ensures r.rect.x == START_X && r.rect.y == windowHeight - START_HEIGHT
    ensures r.rect.w == b.rect.w && r.rect.h == b.rect.h
    ensures r.(rect := b.rect) == b
  {
    b.(rect := b.rect.(x := START_X, y := windowHeight - START_HEIGHT))
  }

  /// The effect of one event other than a quit request.
  function OnEvent(s: Session, e: Event, windowHeight: int): Session
  {
    match s.state
    case Menu =>
      if e == KeyDown(Return) then s.(state := Playing) else s
    case Playing =>
      (match e
       case KeyDown(Space) => s.(body := Jumped(s.body))
       case KeyDown(KeyP) => s.(state := Paused)
       case KeyDown(Up) => s.(body := Climbed(s.body, -1))
       case KeyDown(Down) => s.(body := Climbed(s.body, 1))
       case KeyUp(Up) => s.(body := ClimbStopped(s.body))
       case KeyUp(Down) => s.(body := ClimbStopped(s.body))
       case _ => s)
    case Paused =>
      if e == KeyDown(KeyP) then s.(state := Playing) else s
    case LevelComplete =>
      if e != KeyDown(Return) then s
      else if s.currentLevel + 1 <= TOTAL_LEVELS then
        Session(Playing, s.currentLevel + 1, Repositioned(s.body, windowHeight), Layout(s.currentLevel + 1))
      else s.(currentLevel := s.currentLevel + 1, state := GameOver)
    case GameOver =>
      if e == KeyDown(Return) then Session(Menu, 1, Repositioned(s.body, windowHeight), Layout(1))
      else s
  }

  /// Held movement, applied after the events and only while playing: left
  /// wins over right, and with neither the panda stops horizontally.
  function HeldMovement(s: Session, held: Held): Session
  {
    if s.state != Playing then s
    else if held.left then s.(body := Moved(s.body, -1))
    else if held.right then s.(body := Moved(s.body, 1))
    else s.(body := s.body.(velocityX := 0))
  }

  /// The events of one frame in order, then the held keys. A quit request
  /// ends the handling at once, with `false` and without the held movement.
  function EventsHandled(s: Session, events: seq<Event>, held: Held, windowHeight: int): (Session, bool)
    decreases |events|
  {
    if events == [] then (HeldMovement(s, held), true)
    else if events[0] == Quit then (s, false)
    else EventsHandled(OnEvent(s, events[0], windowHeight), events[1..], held, windowHeight)
  }

  /// The cages after the panda's rectangle `r` has opened every cage it touches.
  function OpenTouched(cages: seq<CageState>, r: Rect): (cs: seq<CageState>)
    ensures |cs| == |cages|
    ensures forall i :: 0 <= i < |cages| ==>
              cs[i].rect == cages[i].rect && cs[i].animalType == cages[i].animalType &&
              cs[i].isOpen == (cages[i].isOpen || Overlaps(r, cages[i].rect))
  {
    seq(|cages|, i requires 0 <= i < |cages| =>
      if Overlaps(r, cages[i].rect) then Opened(cages[i]) else cages[i])
  }

  predicate AllOpen(cages: seq<CageState>)
  {
    forall i :: 0 <= i < |cages| ==> cages[i].isOpen
  }

  function EnemyRects(es: seq<EnemyState>): seq<Rect>
  {
    Map(es, (e: EnemyState) => e.rect)
  }

  /// One `update` of the game. Outside PLAYING nothing happens. While
  /// playing, the enemies step, then the panda, then the touched cages open;
  /// all cages open completes the level, and touching an enemy overrides
  /// that with GAME_OVER.
  function GameTick(s: Session, gravity: int): Session
  {
    if s.state != Playing then s
    else
      var w := Advanced(s.world);
      var b := Tick(s.body, gravity, w.platforms, w.bamboo);
      var cages := OpenTouched(w.cages, b.rect);
      var state :=
        if OverlapsAny(b.rect, EnemyRects(w.enemies)) then GameOver
        else if AllOpen(cages) then LevelComplete
        else Playing;
      Session(state, s.currentLevel, b, w.(cages := cages))
  }

  /// The number of the level on show: the current level, except after the
  /// last level has been completed, when the last level stays loaded.
  function LevelShown(currentLevel: int): int
  {
    if currentLevel <= TOTAL_LEVELS then currentLevel else TOTAL_LEVELS
  }

  /// What holds of every reachable session: the level counter stays within
  /// 1 .. TOTAL_LEVELS + 1 and passes the last level only in GAME_OVER; the
  /// level on show has its layout's platforms and bamboo and as many cages
  /// and enemies.
  predicate Reachable(s: Session)
  {
    1 <= s.currentLevel <= TOTAL_LEVELS + 1 &&
    (s.currentLevel > TOTAL_LEVELS ==> s.state == GameOver) &&
    var layout := Layout(LevelShown(s.currentLevel));
    s.world.platforms == layout.platforms && s.world.bamboo == layout.bamboo &&
    |s.world.cages| == |layout.cages| && |s.world.enemies| == |layout.enemies| &&
    s.body.leftBoundary == LEFT_BOUNDARY && s.body.rightBoundary == RIGHT_BOUNDARY &&
    s.body.rect.w == PLAYER_SIZE && s.body.rect.h == PLAYER_SIZE
  }

  /// The game-over screen congratulates exactly when the counter has passed
  /// the last level.
  predicate Won(s: Session)
  {
    s.state == GameOver && s.currentLevel > TOTAL_LEVELS
  }

  // ---------------------------------------------------------------- the class

  class Game {
    var state: GameState
    var currentLevel: int
    const totalLevels: int
    const windowHeight: int
    var player: Player
    var level: Level

    ghost predicate Valid()
      reads this, level
    {
      totalLevels == TOTAL_LEVELS && level.Valid()
    }

    function Model(): Session
      reads this, player, level, level.cages, level.enemies
    {
      Session(state, currentLevel, player.State(), level.Model())
    }

    /// The window height and the panda's gravity are parameters here.
    constructor (windowHeight: int, gravity: int)
      requires gravity > 0
      ensures Valid() && Model() == InitialSession(windowHeight)
      ensures this.windowHeight == windowHeight && player.gravity == gravity
    {
      state := Menu;
      currentLevel := 1;
      totalLevels := TOTAL_LEVELS;
      this.windowHeight := windowHeight;
      player := new Player(START_X, windowHeight - START_HEIGHT, gravity);
      level := new Level(1);
    }

    /// Reads the frame's events in order; `false` means a quit request.
    method HandleEvents(events: seq<Event>, held: Held) returns (running: bool)
      requires Valid()
      modifies this, player
      ensures Valid() && player == old(player)
      ensures (Model(), running) == EventsHandled(old(Model()), events, held, windowHeight)
    {
      for i := 0 to |events|
        invariant Valid() && player == old(player)
        invariant EventsHandled(Model(), events[i..], held, windowHeight) ==
                  EventsHandled(old(Model()), events, held, windowHeight)
      {
        assert events[i..][1..] == events[i + 1..];
        if events[i] == Quit {
          return false;
        }
        HandleEvent(events[i]);
      }
      ApplyHeldKeys(held);
      running := true;
    }

    /// One event other than a quit request.
    method HandleEvent(e: Event)
      requires Valid() && e != Quit
      modifies this, player
      ensures Valid() && player == old(player)
      ensures Model() == OnEvent(old(Model()), e, windowHeight)
    {
      match state
      case Menu =>
        if e == KeyDown(Return) {
          state := Playing;
        }
      case Playing =>
        HandlePlayingEvent(e);
      case Paused =>
        if e == KeyDown(KeyP) {
          state := Playing;
        }
      case LevelComplete =>
        if e == KeyDown(Return) {
          NextLevel();
        }
      case GameOver =>
        if e == KeyDown(Return) {
          Restart();
        }
    }

    /// Jump, pause and the climbing keys while playing.
    method HandlePlayingEvent(e: Event)
      requires state == Playing
      modifies this, player
      ensures player == old(player) && level == old(level)
      ensures Model() == OnEvent(old(Model()), e, windowHeight)
    {
      match e {
        case KeyDown(Space) => player.Jump();
        case KeyDown(KeyP) => state := Paused;
        case KeyDown(Up) => player.Climb(-1);
        case KeyDown(Down) => player.Climb(1);
        case KeyUp(Up) => player.StopClimbing();
        case KeyUp(Down) => player.StopClimbing();
        case _ =>
      }
    }

    /// Enter on the level-complete screen: the next level, or the end.
    method NextLevel()
      requires Valid() && state == LevelComplete
      modifies this, player
      ensures Valid() && player == old(player)
      ensures Model() == OnEvent(old(Model()), KeyDown(Return), windowHeight)
    {
      currentLevel := currentLevel + 1;
      if currentLevel <= totalLevels {
        level := new Level(currentLevel);
        player.rect := player.rect.(x := START_X);
        player.rect := player.rect.(y := windowHeight - START_HEIGHT);
        state := Playing;
      } else {
        state := GameOver;
      }
    }

    /// Enter on the game-over screen: back to the menu with level 1.
    method Restart()
      requires Valid() && state == GameOver
      modifies this, player
      ensures Valid() && player == old(player)
      ensures Model() == OnEvent(old(Model()), KeyDown(Return), windowHeight)
    {
      currentLevel := 1;
      level := new Level(currentLevel);
      player.rect := player.rect.(x := START_X);
      player.rect := player.rect.(y := windowHeight - START_HEIGHT);
      state := Menu;
    }

    /// The held arrow keys, while playing.
    method ApplyHeldKeys(held: Held)
      modifies player
      ensures Model() == HeldMovement(old(Model()), held)
    {
      if state == Playing {
        if held.left {
          player.Move(-1);
        } else if held.right {
          player.Move(1);
        } else {
          player.velocityX := 0;
        }
      }
    }

    /// One frame's update.
    method Update()
      requires Valid()
      modifies this, player, level.cages, level.enemies
      ensures Valid() && player == old(player) && level == old(level)
      ensures Model() == GameTick(old(Model()), player.gravity)
    {
      if state == Playing {
        ghost var s0 := Model();
        StepLevelAndPanda();
        ghost var w := Advanced(s0.world);
        ghost var b := Tick(s0.body, player.gravity, w.platforms, w.bamboo);
        OpenTouchedCages();
        assert Model() == s0.(body := b, world := w.(cages := OpenTouched(w.cages, b.rect)));
        DecideOutcome();
      }
    }

    /// Touching an enemy ends the game; otherwise all cages open completes
    /// the level; otherwise play goes on.
    method DecideOutcome()
      modifies this`state
      ensures var m := old(Model());
              Model() == m.(state := if OverlapsAny(m.body.rect, EnemyRects(m.world.enemies)) then GameOver
                                     else if AllOpen(m.world.cages) then LevelComplete
                                     else m.state)
    {
      var allOpen := CagesAllOpen();
      var hit := OverlapsAny(player.rect, EnemyRects(EnemyStates(level.enemies)));
      state := if hit then GameOver else if allOpen then LevelComplete else state;
    }

    /// The level's update, then the panda's, against the level after it.
    method StepLevelAndPanda()
      requires Valid()
      modifies player, level.enemies
      ensures Valid()
      ensures Model() == old(Model()).(body := Tick(old(player.State()), player.gravity,
                                                     Advanced(old(level.Model())).platforms,
                                                     Advanced(old(level.Model())).bamboo),
                                       world := Advanced(old(level.Model())))
    {
      level.Update();
      player.Update(level.platforms, level.bamboo);
    }

    /// Whether every cage of the level is open (vacuously so with no cages).
    method CagesAllOpen() returns (allOpen: bool)
      ensures allOpen == AllOpen(CageStates(level.cages))
    {
      allOpen := true;
      var i := 0;
      while i < |level.cages|
        invariant 0 <= i <= |level.cages|
        invariant allOpen == (forall j :: 0 <= j < i ==> level.cages[j].isOpen)
      {
        if !level.cages[i].isOpen {
          allOpen := false;
          break;
        }
        i := i + 1;
      }
    }

    /// Opens every cage the panda touches.
    method OpenTouchedCages()
      requires Valid()
      modifies level.cages
      ensures Model() == old(Model()).(world := old(level.Model()).(cages := OpenTouched(old(level.Model()).cages, player.rect)))
    {
      ghost var before := CageStates(level.cages);
      for i := 0 to |level.cages|
        invariant forall j :: 0 <= j < i ==>
                    level.cages[j].State() ==
                    (if Overlaps(player.rect, before[j].rect) then Opened(before[j]) else before[j])
        invariant forall j :: i <= j < |level.cages| ==> level.cages[j].State() == before[j]
      {
        if Overlaps(player.rect, level.cages[i].rect) {
          level.cages[i].OpenCage();
        }
      }
    }
  }
}
