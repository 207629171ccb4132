/** Two ways checkPlayerBulletCollisions as written (src/js/systems/collisionSystem.js,
    lines 25-73) goes wrong, each shown on a concrete frame next to the corrected pass
    that the game screen runs. */
module CollisionFindings {
  import opened Options
  import opened Config
  import opened Bullets
  import opened Enemies
  import opened Ufos
  import opened Bosses
  import opened Collision

  /** A special bullet rising through the gap between the front enemy row (y = 120) and
      a UFO that has just spawned (y = 64): its 48-pixel box overlaps both. */
  function Special(): Bullet { NewSpecialBullet(100.0, 88.0, Velocity(0.0, -800.0)) }

  /** A plain bullet far from everything, fired after the special, so later in the list. */
  function Bystander(): Bullet { NewBullet(300.0, 300.0, Velocity(0.0, -400.0)) }

  function FrontEnemy(): Enemy { NewEnemy(100.0, 120.0) }

  function NewUfo(): UfoState { SpawnedUfo(CANVAS_WIDTH, CANVAS_HEIGHT, true).(x := 100.0) }

  /** Double splice: the special bullet at index 0 hits the enemy and is spliced out; the
      UFO test then splices index 0 again and removes the bystander, which had hit
      nothing. The corrected pass keeps the bystander. */
  lemma DoubleSpliceAsWritten()
    ensures PlayerBulletPass([Special(), Bystander()], [FrontEnemy()], Some(NewUfo()), None, AsWritten).bullets == []
    ensures PlayerBulletPass([Special(), Bystander()], [FrontEnemy()], Some(NewUfo()), None, Corrected).bullets == [Bystander()]
  {
    var p0 := StartPass([Special(), Bystander()], [FrontEnemy()], Some(NewUfo()), None);
    assert LastHit(Bystander(), [FrontEnemy()], 1) == None;
    assert LastHit(Special(), [FrontEnemy()], 1) == Some(0);
    var w1 := BulletStep(p0, 1, AsWritten);
    assert w1.bullets == [Special(), Bystander()];
    var c1 := BulletStep(p0, 1, Corrected);
    assert c1.bullets == [Special(), Bystander()];
    assert BulletStep(w1, 0, AsWritten).bullets == [];
    assert BulletStep(c1, 0, Corrected).bullets == [Bystander()];
  }

  /** Two bullets that both overlap the UFO in one frame, the special having caught up
      with a plain one. */
  function Caught(): Bullet { NewBullet(100.0, 70.0, Velocity(0.0, -400.0)) }
  function Catcher(): Bullet { NewSpecialBullet(100.0, 75.0, Velocity(0.0, -800.0)) }

  /** Stale UFO: the first bullet checked kills the UFO and the slot is cleared, but the
      loop keeps testing its own reference to the dead UFO, so the second bullet hits it
      again and UFO_KILL is awarded twice. The corrected pass awards it once and leaves
      the second bullet flying. */
  lemma StaleUfoAsWritten()
    ensures PlayerBulletPass([Caught(), Catcher()], [], Some(NewUfo()), None, AsWritten).awards
            == [SCORE_UFO_KILL, SCORE_UFO_KILL]
    ensures PlayerBulletPass([Caught(), Catcher()], [], Some(NewUfo()), None, Corrected).awards == [SCORE_UFO_KILL]
    ensures PlayerBulletPass([Caught(), Catcher()], [], Some(NewUfo()), None, Corrected).bullets == [Caught()]
  {
    var p0 := StartPass([Caught(), Catcher()], [], Some(NewUfo()), None);
    var w1 := BulletStep(p0, 1, AsWritten);
    assert w1.awards == [SCORE_UFO_KILL];
    var c1 := BulletStep(p0, 1, Corrected);
    assert c1.awards == [SCORE_UFO_KILL] && !c1.ufoInSlot;
    assert BulletStep(w1, 0, AsWritten).awards == [SCORE_UFO_KILL, SCORE_UFO_KILL];
  }

  /** A boss worn down to its last point of health, with two bullets inside its box. */
  function WornBoss(): BossState { InitialBoss(CANVAS_WIDTH, CANVAS_HEIGHT).(health := 1) }
  function LowBullet(): Bullet { NewBullet(180.0, 150.0, Velocity(0.0, -400.0)) }
  function HighBullet(): Bullet { NewBullet(180.0, 110.0, Velocity(0.0, -400.0)) }

  /** Stale boss: the same with BOSS_KILL, awarded twice for one boss. */
  lemma StaleBossAsWritten()
    ensures PlayerBulletPass([HighBullet(), LowBullet()], [], None, Some(WornBoss()), AsWritten).awards
            == [SCORE_BOSS_KILL, SCORE_BOSS_KILL]
    ensures PlayerBulletPass([HighBullet(), LowBullet()], [], None, Some(WornBoss()), Corrected).awards == [SCORE_BOSS_KILL]
  {
    var p0 := StartPass([HighBullet(), LowBullet()], [], None, Some(WornBoss()));
    var w1 := BulletStep(p0, 1, AsWritten);
    assert w1.awards == [SCORE_BOSS_KILL];
    var c1 := BulletStep(p0, 1, Corrected);
    assert c1.awards == [SCORE_BOSS_KILL] && !c1.bossInSlot;
    assert BulletStep(w1, 0, AsWritten).awards == [SCORE_BOSS_KILL, SCORE_BOSS_KILL];
  }
}
