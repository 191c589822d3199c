/// What the game's state machine and its per-tick rule guarantee.
module GameProperties {
  import opened Rects
  import opened Objects
  import opened Players
  import opened Levels
  import opened Games
  import opened PlayerProperties

  /// The menu starts a game on Enter and on nothing else; P toggles between
  /// playing and paused, and the paused screen ignores every other event.
  lemma MenuAndPause(s: Session, e: Event, windowHeight: int)
    ensures s.state == Menu ==>
              OnEvent(s, e, windowHeight) == (if e == KeyDown(Return) then s.(state := Playing) else s)
    ensures s.state == Paused ==>
              OnEvent(s, e, windowHeight) == (if e == KeyDown(KeyP) then s.(state := Playing) else s)
    ensures s.state == Playing && e == KeyDown(KeyP) ==> OnEvent(s, e, windowHeight) == s.(state := Paused)
  {
  }

  /// While playing, events only touch the panda's velocities, ground and
  /// climbing flags, or pause the game; the level and its counter stay.
  lemma PlayingEventsKeepLevel(s: Session, e: Event, windowHeight: int)
    requires s.state == Playing
    ensures var r := OnEvent(s, e, windowHeight);
            r.world == s.world && r.currentLevel == s.currentLevel &&
            r.body.rect == s.body.rect &&
            (r.state == Playing || (r.state == Paused && e == KeyDown(KeyP)))
  {
  }

  /// Enter on the level-complete screen advances the counter; within the
  /// levels it loads the next one, puts the panda back at the start and
  /// resumes play, past the last it ends the game and keeps the level.
  lemma LevelCompleteOnEnter(s: Session, windowHeight: int)
    requires s.state == LevelComplete
    ensures var r := OnEvent(s, KeyDown(Return), windowHeight);
            r.currentLevel == s.currentLevel + 1 &&
            (r.currentLevel <= TOTAL_LEVELS ==>
               r.state == Playing && r.world == Layout(r.currentLevel) &&
               r.body == Repositioned(s.body, windowHeight)) &&
            (r.currentLevel > TOTAL_LEVELS ==>
               r.state == GameOver && r.world == s.world && r.body == s.body)
  {
  }

  /// Enter on the game-over screen restarts from level 1 in the menu.
  lemma RestartOnEnter(s: Session, windowHeight: int)
    requires s.state == GameOver
    ensures OnEvent(s, KeyDown(Return), windowHeight) ==
            Session(Menu, 1, Repositioned(s.body, windowHeight), Layout(1))
  {
  }

  /// A level change or restart moves the panda and nothing else: velocities,
  /// ground and climbing state carry over.
  lemma RepositionKeepsMotion(b: Body, windowHeight: int)
    ensures var r := Repositioned(b, windowHeight);
            r.velocityX == b.velocityX && r.velocityY == b.velocityY &&
            r.onGround == b.onGround && r.climbing == b.climbing &&
            r.climbDirection == b.climbDirection && r.facingRight == b.facingRight
  {
  }

  /// Held keys act only while playing; left wins over right, and neither
  /// stops the panda horizontally.
  lemma HeldKeys(s: Session, held: Held)
    ensures s.state != Playing ==> HeldMovement(s, held) == s
    ensures s.state == Playing ==>
              HeldMovement(s, held).body.velocityX ==
              (if held.left then -PLAYER_SPEED else if held.right then PLAYER_SPEED else 0)
    ensures HeldMovement(s, held).state == s.state && HeldMovement(s, held).world == s.world
  {
  }

  /// A quit request ends the frame's handling: the events after it and the
  /// held keys make no difference, and the game is told to stop.
  lemma {:induction false} QuitIgnoresTheRest(s: Session, before: seq<Event>, after: seq<Event>,
                                              held: Held, held': Held, windowHeight: int)
    requires forall i :: 0 <= i < |before| ==> before[i] != Quit
    ensures EventsHandled(s, before + [Quit] + after, held, windowHeight) ==
            EventsHandled(s, before + [Quit], held', windowHeight)
    ensures !EventsHandled(s, before + [Quit] + after, held, windowHeight).1
    decreases |before|
  {
    if before == [] {
      assert ([] + [Quit] + after)[0] == Quit;
      assert ([] + [Quit])[0] == Quit;
    } else {
      var s' := OnEvent(s, before[0], windowHeight);
      assert (before + [Quit] + after)[1..] == before[1..] + [Quit] + after;
      assert (before + [Quit])[1..] == before[1..] + [Quit];
      QuitIgnoresTheRest(s', before[1..], after, held, held', windowHeight);
    }
  }

  /// Without a quit request the handling goes on: the game keeps running.
  lemma {:induction false} NoQuitKeepsRunning(s: Session, events: seq<Event>, held: Held, windowHeight: int)
    requires forall i :: 0 <= i < |events| ==> events[i] != Quit
    ensures EventsHandled(s, events, held, windowHeight).1
    decreases |events|
  {
    if events != [] {
      NoQuitKeepsRunning(OnEvent(s, events[0], windowHeight), events[1..], held, windowHeight);
    }
  }

  // ---------------------------------------------------------------- the invariant

  lemma InitialReachable(windowHeight: int)
    ensures Reachable(InitialSession(windowHeight))
    ensures !Won(InitialSession(windowHeight))
  {
  }

  lemma OnEventKeepsReachable(s: Session, e: Event, windowHeight: int)
    requires Reachable(s)
    ensures Reachable(OnEvent(s, e, windowHeight))
  {
  }

  lemma {:induction false} EventsKeepReachable(s: Session, events: seq<Event>, held: Held, windowHeight: int)
    requires Reachable(s)
    ensures Reachable(EventsHandled(s, events, held, windowHeight).0)
    decreases |events|
  {
    if events != [] && events[0] != Quit {
      OnEventKeepsReachable(s, events[0], windowHeight);
      EventsKeepReachable(OnEvent(s, events[0], windowHeight), events[1..], held, windowHeight);
    }
  }

  lemma TickKeepsReachable(s: Session, gravity: int)
    requires Reachable(s)
    ensures Reachable(GameTick(s, gravity))
  {
    TickFrame(s, gravity);
  }

  /// What a tick leaves alone: the counter, the static sprites, the numbers
  /// of cages and enemies, the boundaries and the panda's size; and it only
  /// leaves PLAYING for LEVEL_COMPLETE or GAME_OVER.
  lemma TickFrame(s: Session, gravity: int)
    ensures var r := GameTick(s, gravity);
            r.currentLevel == s.currentLevel &&
            r.world.platforms == s.world.platforms && r.world.bamboo == s.world.bamboo &&
            |r.world.cages| == |s.world.cages| && |r.world.enemies| == |s.world.enemies| &&
            r.body.leftBoundary == s.body.leftBoundary && r.body.rightBoundary == s.body.rightBoundary &&
            r.body.rect.w == s.body.rect.w && r.body.rect.h == s.body.rect.h &&
            (r.state == s.state || s.state == Playing)
  {
    if s.state == Playing {
      var w := Advanced(s.world);
      TickKeepsSize(s.body, gravity, w.platforms, w.bamboo);
      TickKeepsBoundaries(s.body, gravity, w.platforms, w.bamboo);
      assert GameTick(s, gravity).body == Tick(s.body, gravity, w.platforms, w.bamboo);
    }
  }

  /// In a reachable session the panda's horizontal move always ends inside
  /// the window's boundaries.
  lemma ReachableMovesInside(s: Session)
    requires Reachable(s)
    ensures LEFT_BOUNDARY <= MoveAndClamp(s.body).rect.Left()
    ensures MoveAndClamp(s.body).rect.Right() <= RIGHT_BOUNDARY
  {
    ClampKeepsInside(s.body);
  }

  /// In a reachable session the counter is past the last level exactly when
  /// the game is won, and the game is won only through Enter on the last
  /// level's completion screen: neither a tick nor the held keys win it.
  lemma WonExactlyPastLastLevel(s: Session, e: Event, windowHeight: int, gravity: int, held: Held)
    requires Reachable(s)
    ensures Won(s) <==> s.currentLevel > TOTAL_LEVELS
    ensures !Won(s) && Won(OnEvent(s, e, windowHeight)) ==>
              s.state == LevelComplete && s.currentLevel == TOTAL_LEVELS && e == KeyDown(Return)
    ensures !Won(s) ==> !Won(GameTick(s, gravity)) && !Won(HeldMovement(s, held))
  {
  }

  // ---------------------------------------------------------------- the tick

  /// The tick's outcome: nothing happens outside PLAYING; while playing the
  /// enemies take one patrol step, the panda moves through the level's
  /// platforms and bamboo, which that step does not change, and the state becomes GAME_OVER exactly
  /// when the moved panda touches a moved enemy, else LEVEL_COMPLETE exactly
  /// when every cage is open, else stays PLAYING.
  lemma TickOutcome(s: Session, gravity: int)
    ensures s.state != Playing ==> GameTick(s, gravity) == s
    ensures var r := GameTick(s, gravity);
            s.state == Playing ==>
              r.body == Tick(s.body, gravity, s.world.platforms, s.world.bamboo) &&
              r.currentLevel == s.currentLevel &&
              r.world.platforms == s.world.platforms && r.world.bamboo == s.world.bamboo &&
              |r.world.enemies| == |s.world.enemies| &&
              (forall i :: 0 <= i < |s.world.enemies| ==> r.world.enemies[i] == Patrol(s.world.enemies[i])) &&
              (r.state == GameOver <==> exists i :: 0 <= i < |r.world.enemies| && Overlaps(r.body.rect, r.world.enemies[i].rect)) &&
              (r.state == LevelComplete <==> r.state != GameOver && forall i :: 0 <= i < |r.world.cages| ==> r.world.cages[i].isOpen) &&
              (r.state == Playing <==> r.state != GameOver && r.state != LevelComplete)
  {
  }

  /// A level without cages is complete on the first tick that does not end
  /// the game.
  lemma NoCagesCompletes(s: Session, gravity: int)
    requires s.state == Playing && s.world.cages == []
    ensures GameTick(s, gravity).state != GameOver ==> GameTick(s, gravity).state == LevelComplete
  {
  }

  /// The session after n ticks.
  function GameTickN(s: Session, gravity: int, n: nat): Session
    decreases n
  {
    if n == 0 then s else GameTickN(GameTick(s, gravity), gravity, n - 1)
  }

  /// Ticks never close a cage, move it, or change its animal, and a cage the
  /// panda touches while playing is open after that tick.
  lemma TickCages(s: Session, gravity: int, i: int)
    requires 0 <= i < |s.world.cages|
    ensures var r := GameTick(s, gravity);
            |r.world.cages| == |s.world.cages| &&
            r.world.cages[i].rect == s.world.cages[i].rect &&
            r.world.cages[i].animalType == s.world.cages[i].animalType &&
            (s.world.cages[i].isOpen ==> r.world.cages[i].isOpen) &&
            (s.state == Playing && Overlaps(r.body.rect, s.world.cages[i].rect) ==> r.world.cages[i].isOpen)
  {
  }

  /// However many ticks pass, an open cage stays open.
  lemma {:induction false} CagesNeverClose(s: Session, gravity: int, n: nat, i: int)
    requires 0 <= i < |s.world.cages| && s.world.cages[i].isOpen
    ensures |GameTickN(s, gravity, n).world.cages| == |s.world.cages|
    ensures GameTickN(s, gravity, n).world.cages[i].isOpen
    ensures GameTickN(s, gravity, n).world.cages[i].rect == s.world.cages[i].rect
    decreases n
  {
    if n > 0 {
      TickCages(s, gravity, i);
      CagesNeverClose(GameTick(s, gravity), gravity, n - 1, i);
    }
  }
}
