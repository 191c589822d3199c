/// A level: the platforms, bamboo stalks, cages and enemies of one layout,
/// chosen by level number, and the per-tick update of its sprites.
module Levels {
  import opened Rects
  import opened Objects

  /// What an observer can see of a level, collection by collection, in the
  /// order the entities were added.
  datatype World = World(
    platforms: seq<Rect>,
    bamboo: seq<Rect>,
    cages: seq<CageState>,
    enemies: seq<EnemyState>)

  /// The rectangle of a platform, a stalk and a cage as their constructors
  /// lay them out.
  function PlatformAt(x: int, y: int, width: int, height: int): Rect { Rect(x, y, width, height) }
  function StalkAt(x: int, y: int, height: int): Rect { Rect(x, y, BAMBOO_WIDTH, height) }
  function CageAt(x: int, y: int, animalType: string): CageState
  {
    CageState(Rect(x, y, CAGE_SIZE, CAGE_SIZE), animalType, false)
  }

  /// The layout table: level 1, level 2, and nothing for any other number.
  function Layout(levelNum: int): World
  {
    if levelNum == 1 then LayoutOne()
    else if levelNum == 2 then LayoutTwo()
    else World([], [], [], [])
  }

  function LayoutOne(): World
  {
    World(
      [PlatformAt(0, 550, 800, 50), PlatformAt(100, 450, 200, 20),
       PlatformAt(400, 350, 200, 20), PlatformAt(200, 250, 200, 20)],
      [StalkAt(350, 250, 300), StalkAt(650, 350, 200)],
      [CageAt(700, 500, "monkey")],
      [NewEnemy(400, 530, 300, 600)])
  }

  function LayoutTwo(): World
  {
    World(
      [PlatformAt(0, 550, 800, 50), PlatformAt(50, 450, 150, 20),
       PlatformAt(300, 400, 150, 20), PlatformAt(550, 350, 150, 20),
       PlatformAt(300, 250, 150, 20), PlatformAt(50, 200, 150, 20)],
      [StalkAt(250, 200, 350), StalkAt(500, 250, 300), StalkAt(700, 350, 200)],
      [CageAt(100, 150, "tiger")],
      [NewEnemy(200, 530, 100, 400), NewEnemy(600, 530, 500, 700)])
  }

  /// One `update` of the level: every enemy takes one patrol step; platforms,
  /// bamboo and cages do nothing.
  function Advanced(w: World): World
  {
    w.(enemies := seq(|w.enemies|, i requires 0 <= i < |w.enemies| => Patrol(w.enemies[i])))
  }

  /// The level after n updates.
  function AdvancedN(w: World, n: nat): World
    decreases n
  {
    if n == 0 then w else AdvancedN(Advanced(w), n - 1)
  }

  /// The layout table's contents: the counts per level, the animal, the
  /// ground as first platform, closed cages, and nothing for an unknown number.
  lemma LayoutContents(levelNum: int)
    ensures var w := Layout(levelNum);
            levelNum == 1 ==>
              |w.platforms| == 4 && |w.bamboo| == 2 && |w.cages| == 1 && |w.enemies| == 1 &&
              w.cages[0].animalType == "monkey" &&
              w.enemies[0].patrolStart == 300 && w.enemies[0].patrolEnd == 600
    ensures var w := Layout(levelNum);
            levelNum == 2 ==>
              |w.platforms| == 6 && |w.bamboo| == 3 && |w.cages| == 1 && |w.enemies| == 2 &&
              w.cages[0].animalType == "tiger"
    ensures var w := Layout(levelNum);
            levelNum != 1 && levelNum != 2 ==>
              w.platforms == [] && w.bamboo == [] && w.cages == [] && w.enemies == []
    ensures var w := Layout(levelNum);
            (levelNum == 1 || levelNum == 2) ==>
              w.platforms[0] == Rect(0, 550, 800, 50) &&
              forall i :: 0 <= i < |w.cages| ==> !w.cages[i].isOpen
  {
  }

  /// Every enemy of the layout table starts on its grid: strictly inside its
  /// range, heading right, an even distance from each bound.
  lemma LayoutEnemiesOnGrid(levelNum: int, i: int)
    requires 0 <= i < |Layout(levelNum).enemies|
    ensures PatrollingOnGrid(Layout(levelNum).enemies[i])
    ensures var e := Layout(levelNum).enemies[i];
            e.patrolStart < e.rect.x < e.patrolEnd
  {
  }

  /// n level updates take every enemy n patrol steps and leave platforms,
  /// bamboo and cages as they were.
  lemma {:induction false} AdvancedNSteps(w: World, n: nat)
    ensures var r := AdvancedN(w, n);
            r.platforms == w.platforms && r.bamboo == w.bamboo && r.cages == w.cages &&
            |r.enemies| == |w.enemies| &&
            forall i :: 0 <= i < |w.enemies| ==> r.enemies[i] == PatrolN(w.enemies[i], n)
    decreases n
  {
    if n > 0 {
      AdvancedNSteps(Advanced(w), n - 1);
    }
  }

  /// However many updates pass, an enemy of a defined level stays within its
  /// closed patrol range: the layout puts it on its grid, so it meets the
  /// bounds exactly instead of overshooting them.
  lemma LevelEnemiesStayInRange(levelNum: int, n: nat, i: int)
    requires 0 <= i < |Layout(levelNum).enemies|
    ensures |AdvancedN(Layout(levelNum), n).enemies| == |Layout(levelNum).enemies|
    ensures var e := Layout(levelNum).enemies[i];
            e.patrolStart <= AdvancedN(Layout(levelNum), n).enemies[i].rect.x <= e.patrolEnd
  {
    LayoutEnemiesOnGrid(levelNum, i);
    AdvancedNSteps(Layout(levelNum), n);
    PatrolStaysInRange(Layout(levelNum).enemies[i], n);
  }

  /// No two positions of a sequence hold the same object.
  ghost predicate Distinct<T>(s: seq<T>)
  {
    forall i, j :: 0 <= i < j < |s| ==> s[i] != s[j]
  }

  function PlatformSprites(ps: seq<Platform>): seq<object> { Map(ps, (p: Platform) => p as object) }
  function BambooSprites(bs: seq<Bamboo>): seq<object> { Map(bs, (b: Bamboo) => b as object) }
  function CageSprites(cs: seq<AnimalCage>): seq<object> { Map(cs, (c: AnimalCage) => c as object) }
  function EnemySprites(es: seq<Enemy>): seq<object> { Map(es, (e: Enemy) => e as object) }

  class Level {
    const levelNum: int
    var platforms: seq<Platform>
    var bamboo: seq<Bamboo>
    var cages: seq<AnimalCage>
    var enemies: seq<Enemy>
    /// Every sprite of the level, whatever its kind, in the order added.
    var allSprites: seq<object>

    ghost predicate Valid()
      reads this
    {
      Distinct(cages) && Distinct(enemies) &&
      allSprites == PlatformSprites(platforms) + BambooSprites(bamboo) + CageSprites(cages) + EnemySprites(enemies)
    }

    function Model(): World
      reads this, cages, enemies
    {
      World(PlatformRects(platforms), StalkRects(bamboo), CageStates(cages), EnemyStates(enemies))
    }

    constructor (levelNum: int)
      ensures this.levelNum == levelNum
      ensures Valid() && Model() == Layout(levelNum)
    {
      this.levelNum := levelNum;
      platforms, bamboo, cages, enemies := [], [], [], [];
      allSprites := [];
      new;
      SetupLevel();
    }

    /// Fills the collections for this level's number; there is no layout,
    /// and so nothing is added, for a number other than 1 and 2.
    method SetupLevel()
      requires platforms == [] && bamboo == [] && cages == [] && enemies == [] && allSprites == []
      modifies this
      ensures Valid() && Model() == Layout(levelNum)
    {
      if levelNum == 1 {
        SetupLevelOne();
      } else if levelNum == 2 {
        SetupLevelTwo();
      }
    }

    method SetupLevelOne()
      requires platforms == [] && bamboo == [] && cages == [] && enemies == [] && allSprites == []
      modifies this
      ensures Valid() && Model() == LayoutOne()
    {
      SetupPlatformsOne();
      SetupBambooOne();
      SetupCageOne();
      SetupEnemiesOne();
    }

    method SetupLevelTwo()
      requires platforms == [] && bamboo == [] && cages == [] && enemies == [] && allSprites == []
      modifies this
      ensures Valid() && Model() == LayoutTwo()
    {
      SetupPlatformsTwo();
      SetupBambooTwo();
      SetupCageTwo();
      SetupEnemiesTwo();
    }

    /// Level 1: the ground, then three floating platforms.
    method SetupPlatformsOne()
      requires platforms == []
      modifies this`platforms, this`allSprites
      ensures PlatformRects(platforms) == LayoutOne().platforms
      ensures allSprites == old(allSprites) + PlatformSprites(platforms)
    {
      var ground := new Platform(0, 550, 800, 50);
      AddPlatforms([ground]);

      var platform1 := new Platform(100, 450, 200, 20);
      var platform2 := new Platform(400, 350, 200, 20);
      var platform3 := new Platform(200, 250, 200, 20);
      AddPlatforms([platform1, platform2, platform3]);
      assert PlatformSprites(platforms) == PlatformSprites([ground]) + PlatformSprites([platform1, platform2, platform3]);
    }

    /// Level 1: two bamboo stalks.
    method SetupBambooOne()
      requires bamboo == []
      modifies this`bamboo, this`allSprites
      ensures StalkRects(bamboo) == LayoutOne().bamboo
      ensures allSprites == old(allSprites) + BambooSprites(bamboo)
    {
      var bamboo1 := new Bamboo(350, 250, 300);
      var bamboo2 := new Bamboo(650, 350, 200);
      AddBamboo([bamboo1, bamboo2]);
    }

    /// Level 1: the monkey's cage.
    method SetupCageOne()
      requires cages == []
      modifies this`cages, this`allSprites
      ensures Distinct(cages) && CageStates(cages) == LayoutOne().cages
      ensures allSprites == old(allSprites) + CageSprites(cages)
    {
      var cage := new AnimalCage(700, 500, "monkey");
      AddCages([cage]);
    }

    /// Level 1: one enemy patrolling [300, 600].
    method SetupEnemiesOne()
      requires enemies == []
      modifies this`enemies, this`allSprites
      ensures Distinct(enemies) && EnemyStates(enemies) == LayoutOne().enemies
      ensures allSprites == old(allSprites) + EnemySprites(enemies)
    {
      var enemy := new Enemy(400, 530, 300, 600);
      AddEnemies([enemy]);
    }

    /// Level 2: the ground, then five floating platforms.
    method SetupPlatformsTwo()
      requires platforms == []
      modifies this`platforms, this`allSprites
      ensures PlatformRects(platforms) == LayoutTwo().platforms
      ensures allSprites == old(allSprites) + PlatformSprites(platforms)
    {
      var ground := new Platform(0, 550, 800, 50);
      AddPlatforms([ground]);

      var platform1 := new Platform(50, 450, 150, 20);
      var platform2 := new Platform(300, 400, 150, 20);
      var platform3 := new Platform(550, 350, 150, 20);
      var platform4 := new Platform(300, 250, 150, 20);
      var platform5 := new Platform(50, 200, 150, 20);
      AddPlatforms([platform1, platform2, platform3, platform4, platform5]);
      assert PlatformSprites(platforms) ==
             PlatformSprites([ground]) + PlatformSprites([platform1, platform2, platform3, platform4, platform5]);
    }

    /// Level 2: three bamboo stalks.
    method SetupBambooTwo()
      requires bamboo == []
      modifies this`bamboo, this`allSprites
      ensures StalkRects(bamboo) == LayoutTwo().bamboo
      ensures allSprites == old(allSprites) + BambooSprites(bamboo)
    {
      var bamboo1 := new Bamboo(250, 200, 350);
      var bamboo2 := new Bamboo(500, 250, 300);
      var bamboo3 := new Bamboo(700, 350, 200);
      AddBamboo([bamboo1, bamboo2, bamboo3]);
    }

    /// Level 2: the tiger's cage.
    method SetupCageTwo()
      requires cages == []
      modifies this`cages, this`allSprites
      ensures Distinct(cages) && CageStates(cages) == LayoutTwo().cages
      ensures allSprites == old(allSprites) + CageSprites(cages)
    {
      var cage := new AnimalCage(100, 150, "tiger");
      AddCages([cage]);
    }

    /// Level 2: two enemies, patrolling [100, 400] and [500, 700].
    method SetupEnemiesTwo()
      requires enemies == []
      modifies this`enemies, this`allSprites
      ensures Distinct(enemies) && EnemyStates(enemies) == LayoutTwo().enemies
      ensures allSprites == old(allSprites) + EnemySprites(enemies)
    {
      var enemy1 := new Enemy(200, 530, 100, 400);
      var enemy2 := new Enemy(600, 530, 500, 700);
      AddEnemies([enemy1, enemy2]);
    }

    /// Adds platforms to their group and to the group of all sprites.
    method AddPlatforms(ps: seq<Platform>)
      modifies this`platforms, this`allSprites
      ensures platforms == old(platforms) + ps
      ensures allSprites == old(allSprites) + PlatformSprites(ps)
    {
      platforms := platforms + ps;
      allSprites := allSprites + PlatformSprites(ps);
    }

    /// Adds bamboo stalks to their group and to the group of all sprites.
    method AddBamboo(bs: seq<Bamboo>)
      modifies this`bamboo, this`allSprites
      ensures bamboo == old(bamboo) + bs
      ensures allSprites == old(allSprites) + BambooSprites(bs)
    {
      bamboo := bamboo + bs;
      allSprites := allSprites + BambooSprites(bs);
    }

    /// Adds cages to their group and to the group of all sprites.
    method AddCages(cs: seq<AnimalCage>)
      modifies this`cages, this`allSprites
      ensures cages == old(cages) + cs
      ensures allSprites == old(allSprites) + CageSprites(cs)
    {
      cages := cages + cs;
      allSprites := allSprites + CageSprites(cs);
    }

    /// Adds enemies to their group and to the group of all sprites.
    method AddEnemies(es: seq<Enemy>)
      modifies this`enemies, this`allSprites
      ensures enemies == old(enemies) + es
      ensures allSprites == old(allSprites) + EnemySprites(es)
    {
      enemies := enemies + es;
      allSprites := allSprites + EnemySprites(es);
    }

    /// Updates every sprite; of the level's sprites only enemies move.
    method Update()
      requires Valid()
      modifies enemies
      ensures Valid() && Model() == Advanced(old(Model()))
    {
      for i := 0 to |enemies|
        invariant forall j :: 0 <= j < i ==> enemies[j].State() == Patrol(old(enemies[j].State()))
        invariant forall j :: i <= j < |enemies| ==> enemies[j].State() == old(enemies[j].State())
      {
        enemies[i].Update();
      }
    }
  }
}
