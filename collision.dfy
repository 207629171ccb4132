/** Collision resolution, src/js/systems/collisionSystem.js. The checks are module
    methods: the class holds nothing but the game reference, and what the checks read
    from the game (the score manager, the canvas height) are parameters. What the
    source writes back into the game screen (the spliced lists, the nulled UFO and boss
    slots, the game-over request) is returned for the screen to store.
    The player-bullet pass is written once for both readings of the source (Variant):
    the method CheckPlayerBulletCollisions runs either, the game screen runs the
    corrected one, and module CollisionFindings shows where the one as written goes
    wrong. */
module Collision {
  import opened Options
  import opened Config
  import opened Bullets
  import opened EnemyBullets
  import opened Enemies
  import opened Ufos
  import opened Bosses
  import opened Players
  import opened Scores

  /** A centre and a size, the four fields checkEntityCollision reads. */
  datatype Box = Box(x: real, y: real, width: real, height: real)

  /** checkEntityCollision: the boxes overlap on both axes, with strict inequalities. */
  predicate CheckEntityCollision(a: Box, b: Box) {
    && a.x - a.width / 2.0 < b.x + b.width / 2.0
    && a.x + a.width / 2.0 > b.x - b.width / 2.0
    && a.y - a.height / 2.0 < b.y + b.height / 2.0
    && a.y + a.height / 2.0 > b.y - b.height / 2.0
  }

  function BulletBox(b: Bullet): Box { Box(b.x, b.y, b.width, b.height) }
  function EnemyBulletBox(b: EnemyBullet): Box { Box(b.x, b.y, b.width, b.height) }
  function EnemyBox(e: Enemy): Box { Box(e.x, e.y, e.width, e.height) }
  function UfoBox(u: UfoState): Box { Box(u.x, u.y, UFO_WIDTH, UFO_HEIGHT) }
  function BossBox(b: BossState): Box { Box(b.x, b.y, BOSS_WIDTH, BOSS_HEIGHT) }
  function PlayerBox(p: PlayerState): Box { Box(p.x, p.y, PLAYER_WIDTH, PLAYER_HEIGHT) }

  function Abs(r: real): real { if r < 0.0 then -r else r }

  /** The test is symmetric; on each axis it holds exactly when the centres are closer
      than half the summed sizes, so boxes that only touch do not collide. */
  lemma EntityCollisionSpec(a: Box, b: Box)
    ensures CheckEntityCollision(a, b) <==> CheckEntityCollision(b, a)
    ensures CheckEntityCollision(a, b) <==>
      Abs(a.x - b.x) < (a.width + b.width) / 2.0 && Abs(a.y - b.y) < (a.height + b.height) / 2.0
    ensures a.x + a.width / 2.0 == b.x - b.width / 2.0 ==> !CheckEntityCollision(a, b)
    ensures a.y + a.height / 2.0 == b.y - b.height / 2.0 ==> !CheckEntityCollision(a, b)
  {
  }

  /** Array.prototype.splice(i, 1): the element at i removed, or nothing past the end. */
  function RemoveAt<T>(s: seq<T>, i: nat): (r: seq<T>)
    ensures |r| == if i < |s| then |s| - 1 else |s|
    ensures forall k :: 0 <= k < |r| ==> r[k] == if k < i then s[k] else s[k + 1]
  {
    if i < |s| then s[..i] + s[i + 1..] else s
  }

  /** The enemy scan of one bullet over indices below k, from the highest down: the
      first overlapping enemy it meets. */
  function LastHit(b: Bullet, es: seq<Enemy>, k: nat): (r: Option<nat>)
    requires k <= |es|
    ensures r.Some? ==> r.value < k
    decreases k
  {
    if k == 0 then None
    else if CheckEntityCollision(BulletBox(b), EnemyBox(es[k - 1])) then Some(k - 1)
    else LastHit(b, es, k - 1)
  }

  /** The scan finds the highest-indexed overlapping enemy below k, or reports that
      none overlaps. */
  lemma {:induction false} LastHitSpec(b: Bullet, es: seq<Enemy>, k: nat)
    requires k <= |es|
    ensures var r := LastHit(b, es, k);
      && (r.None? ==> forall j :: 0 <= j < k ==> !CheckEntityCollision(BulletBox(b), EnemyBox(es[j])))
      && (r.Some? ==> CheckEntityCollision(BulletBox(b), EnemyBox(es[r.value]))
                      && forall j :: r.value < j < k ==> !CheckEntityCollision(BulletBox(b), EnemyBox(es[j])))
    decreases k
  {
    if k > 0 && !CheckEntityCollision(BulletBox(b), EnemyBox(es[k - 1])) {
      LastHitSpec(b, es, k - 1);
    }
  }

  /** What one bullet does to the enemy list: the lists afterwards, whether it hit an
      enemy, and whether that enemy died. */
  datatype EnemyScan = EnemyScan(bullets: seq<Bullet>, enemies: seq<Enemy>, hit: bool, killed: bool)

  /** The enemy loop for the bullet at index i: the hit enemy takes 1 damage, the
      bullet is spliced out, and a dead enemy is spliced out too; then the loop breaks. */
  function ScanEnemies(b: Bullet, bullets: seq<Bullet>, i: nat, es: seq<Enemy>): EnemyScan {
    match LastHit(b, es, |es|)
    case None => EnemyScan(bullets, es, false, false)
    case Some(j) =>
      var d := es[j].TakeDamage(1).enemy;
      if d.isActive then EnemyScan(RemoveAt(bullets, i), es[j := d], true, false)
      else EnemyScan(RemoveAt(bullets, i), RemoveAt(es[j := d], j), true, true)
  }

  /** Which version of the bullet pass: the source as written, or with each bullet
      spliced at most once and the screen's UFO and boss slots read again for every
      bullet. */
  datatype Variant = AsWritten | Corrected

  /** The state a pass carries from bullet to bullet: the two lists, the UFO and the boss
      (their objects outlive their screen slots), whether each is still in its screen slot,
      and the points handed to addScore so far, in order. */
  datatype Pass = Pass(
    bullets: seq<Bullet>,
    enemies: seq<Enemy>,
    ufo: Option<UfoState>,
    ufoInSlot: bool,
    boss: Option<BossState>,
    bossInSlot: bool,
    awards: seq<int>)

  /** A pass part-way through one bullet, with whether that bullet was spliced out yet. */
  datatype Step = Step(pass: Pass, removed: bool)

  function EnemyPhase(p: Pass, b: Bullet, i: nat): (r: Step)
    requires i <= |p.bullets|
    ensures |r.pass.bullets| >= i && r.pass.bullets[..i] == p.bullets[..i]
  {
    var e := ScanEnemies(b, p.bullets, i, p.enemies);
    Step(p.(bullets := e.bullets, enemies := e.enemies,
            awards := p.awards + (if e.killed then [SCORE_ENEMY_KILL] else [])),
         e.hit)
  }

  /** The bullet splice after a UFO or boss hit; the corrected pass skips it when the
      bullet is already gone. */
  function SpliceAgain(bullets: seq<Bullet>, i: nat, removed: bool, v: Variant): seq<Bullet> {
    if v == Corrected && removed then bullets else RemoveAt(bullets, i)
  }

  /** The UFO test: the source tests its `ufo` parameter, which stays set after the UFO
      dies; the corrected pass tests the screen slot. */
  function UfoPhase(st: Step, b: Bullet, i: nat, v: Variant): (r: Step)
    requires i <= |st.pass.bullets|
    ensures |r.pass.bullets| >= i && r.pass.bullets[..i] == st.pass.bullets[..i]
  {
    var p := st.pass;
    if p.ufo.Some? && (v == AsWritten || p.ufoInSlot)
       && CheckEntityCollision(BulletBox(b), UfoBox(p.ufo.value)) then
      var u := UfoDamaged(p.ufo.value, 1);
      Step(p.(bullets := SpliceAgain(p.bullets, i, st.removed, v), ufo := Some(u),
              ufoInSlot := p.ufoInSlot && u.isActive,
              awards := p.awards + (if u.isActive then [] else [SCORE_UFO_KILL])),
           true)
    else st
  }

  function BossPhase(st: Step, b: Bullet, i: nat, v: Variant): (r: Step)
    requires i <= |st.pass.bullets|
    ensures |r.pass.bullets| >= i && r.pass.bullets[..i] == st.pass.bullets[..i]
  {
    var p := st.pass;
    if p.boss.Some? && (v == AsWritten || p.bossInSlot)
       && CheckEntityCollision(BulletBox(b), BossBox(p.boss.value)) then
      var d := BossDamaged(p.boss.value, 1);
      Step(p.(bullets := SpliceAgain(p.bullets, i, st.removed, v), boss := Some(d),
              bossInSlot := p.bossInSlot && d.isActive,
              awards := p.awards + (if d.isActive then [] else [SCORE_BOSS_KILL])),
           true)
    else st
  }

  /** One iteration of the outer loop, for the bullet at index i. Bullets below i are
      untouched. */
  function BulletStep(p: Pass, i: nat, v: Variant): (r: Pass)
    requires i < |p.bullets|
    ensures |r.bullets| >= i && r.bullets[..i] == p.bullets[..i]
  {
    var b := p.bullets[i];
    VisitorPhases(EnemyPhase(p, b, i), b, i, v).pass
  }

  /** The UFO test, then the boss test, of one iteration. */
  function VisitorPhases(st: Step, b: Bullet, i: nat, v: Variant): (r: Step)
    requires i <= |st.pass.bullets|
    ensures |r.pass.bullets| >= i && r.pass.bullets[..i] == st.pass.bullets[..i]
  {
    BossPhase(UfoPhase(st, b, i, v), b, i, v)
  }

  /** The outer loop from index k − 1 down to 0. */
  function PassFrom(p: Pass, k: nat, v: Variant): Pass
    requires k <= |p.bullets|
    decreases k
  {
    if k == 0 then p else PassFrom(BulletStep(p, k - 1, v), k - 1, v)
  }

  function StartPass(bullets: seq<Bullet>, enemies: seq<Enemy>, ufo: Option<UfoState>,
                     boss: Option<BossState>): Pass
  {
    Pass(bullets, enemies, ufo, ufo.Some?, boss, boss.Some?, [])
  }

  /** checkPlayerBulletCollisions over every bullet. */
  function PlayerBulletPass(bullets: seq<Bullet>, enemies: seq<Enemy>, ufo: Option<UfoState>,
                            boss: Option<BossState>, v: Variant): Pass
  {
    PassFrom(StartPass(bullets, enemies, ufo, boss), |bullets|, v)
  }

  function UfoOf(u: Ufo?): Option<UfoState>
    reads u
  {
    if u == null then None else Some(u.State())
  }

  function BossOf(b: Boss?): Option<BossState>
    reads b
  {
    if b == null then None else Some(b.State())
  }

  /** The enemy loop of checkPlayerBulletCollisions for one bullet. */
  method ScanEnemiesFor(bullet: Bullet, bullets: seq<Bullet>, i: nat, enemies: seq<Enemy>,
                        score: ScoreManager)
    returns (bulletsOut: seq<Bullet>, enemiesOut: seq<Enemy>, hit: bool, killed: bool)
    modifies score
    ensures EnemyScan(bulletsOut, enemiesOut, hit, killed) == ScanEnemies(bullet, bullets, i, enemies)
    ensures score.State() == (if killed then Added(old(score.State()), SCORE_ENEMY_KILL) else old(score.State()))
  {
    bulletsOut, enemiesOut, hit, killed := bullets, enemies, false, false;
    var j := |enemies|;
    while j > 0
      invariant 0 <= j <= |enemies|
      invariant LastHit(bullet, enemies, |enemies|) == LastHit(bullet, enemies, j)
      invariant score.State() == old(score.State())
      decreases j
    {
      j := j - 1;
      if CheckEntityCollision(BulletBox(bullet), EnemyBox(enemies[j])) {
        var damaged := enemies[j].TakeDamage(1).enemy;
        enemiesOut := enemies[j := damaged];
        bulletsOut := RemoveAt(bullets, i);
        hit := true;
        if !damaged.isActive {
          var total := score.AddScore(SCORE_ENEMY_KILL);
          enemiesOut := RemoveAt(enemiesOut, j);
          killed := true;
        }
        break;
      }
    }
  }

  /** The UFO test of one iteration of checkPlayerBulletCollisions: as written it tests
      the `ufo` parameter and splices again; corrected it tests the slot and splices
      only a bullet still in the list. */
  method HitUfoFor(bullet: Bullet, bullets: seq<Bullet>, i: nat, removed: bool, es: seq<Enemy>,
                   ufo: Ufo?, ufoSlot: Ufo?, bossState: Option<BossState>, bossInSlot: bool,
                   score: ScoreManager, v: Variant, ghost score0: ScoreState, ghost awards: seq<int>)
    returns (bulletsOut: seq<Bullet>, removedOut: bool, ufoSlotOut: Ufo?, ghost awardsOut: seq<int>)
    requires i <= |bullets|
    requires ufoSlot == null || ufoSlot == ufo
    requires score.State() == AddAll(score0, awards)
    modifies ufo, score
    ensures ufoSlotOut == null || ufoSlotOut == ufo
    ensures score.State() == AddAll(score0, awardsOut)
    ensures Step(Pass(bulletsOut, es, UfoOf(ufo), ufoSlotOut != null, bossState, bossInSlot, awardsOut), removedOut)
            == UfoPhase(Step(Pass(bullets, es, old(UfoOf(ufo)), ufoSlot != null, bossState, bossInSlot, awards), removed),
                        bullet, i, v)
  {
    bulletsOut, removedOut, ufoSlotOut, awardsOut := bullets, removed, ufoSlot, awards;
    var target := if v == AsWritten then ufo else ufoSlot;
    ghost var hit := target != null && CheckEntityCollision(BulletBox(bullet), UfoBox(target.State()));
    assert hit <==> old(UfoOf(ufo)).Some? && (v == AsWritten || ufoSlot != null)
                    && CheckEntityCollision(BulletBox(bullet), UfoBox(old(UfoOf(ufo)).value));
    if target != null && CheckEntityCollision(BulletBox(bullet), UfoBox(target.State())) {
      var destroyed := target.TakeDamage(1);
      if v == AsWritten || !removed {
        bulletsOut := RemoveAt(bullets, i);
      }
      removedOut := true;
      if !target.isActive {
        var total := score.AddScore(SCORE_UFO_KILL);
        AddAllAppend(score0, awards, SCORE_UFO_KILL);
        awardsOut := awards + [SCORE_UFO_KILL];
        ufoSlotOut := null;
      }
    }
  }

  /** The boss test of one iteration of checkPlayerBulletCollisions, of either variant. */
  method HitBossFor(bullet: Bullet, bullets: seq<Bullet>, i: nat, removed: bool, es: seq<Enemy>,
                    ufoState: Option<UfoState>, ufoInSlot: bool, boss: Boss?, bossSlot: Boss?,
                    score: ScoreManager, v: Variant, ghost score0: ScoreState, ghost awards: seq<int>)
    returns (bulletsOut: seq<Bullet>, removedOut: bool, bossSlotOut: Boss?, ghost awardsOut: seq<int>)
    requires i <= |bullets|
    requires bossSlot == null || bossSlot == boss
    requires score.State() == AddAll(score0, awards)
    modifies boss, score
    ensures bossSlotOut == null || bossSlotOut == boss
    ensures score.State() == AddAll(score0, awardsOut)
    ensures Step(Pass(bulletsOut, es, ufoState, ufoInSlot, BossOf(boss), bossSlotOut != null, awardsOut), removedOut)
            == BossPhase(Step(Pass(bullets, es, ufoState, ufoInSlot, old(BossOf(boss)), bossSlot != null, awards), removed),
                         bullet, i, v)
  {
    bulletsOut, removedOut, bossSlotOut, awardsOut := bullets, removed, bossSlot, awards;
    var target := if v == AsWritten then boss else bossSlot;
    ghost var hit := target != null && CheckEntityCollision(BulletBox(bullet), BossBox(target.State()));
    assert hit <==> old(BossOf(boss)).Some? && (v == AsWritten || bossSlot != null)
                    && CheckEntityCollision(BulletBox(bullet), BossBox(old(BossOf(boss)).value));
    if target != null && CheckEntityCollision(BulletBox(bullet), BossBox(target.State())) {
      var destroyed := target.TakeDamage(1);
      if v == AsWritten || !removed {
        bulletsOut := RemoveAt(bullets, i);
      }
      removedOut := true;
      if !target.isActive {
        var total := score.AddScore(SCORE_BOSS_KILL);
        AddAllAppend(score0, awards, SCORE_BOSS_KILL);
        awardsOut := awards + [SCORE_BOSS_KILL];
        bossSlotOut := null;
      }
    }
  }

  /** One iteration of the outer loop of checkPlayerBulletCollisions. */
  method ResolveBullet(bullets: seq<Bullet>, i: nat, es: seq<Enemy>, ufo: Ufo?, ufoSlot: Ufo?,
                       boss: Boss?, bossSlot: Boss?, score: ScoreManager, v: Variant,
                       ghost score0: ScoreState, ghost awards: seq<int>)
    returns (bulletsOut: seq<Bullet>, esOut: seq<Enemy>, ufoSlotOut: Ufo?, bossSlotOut: Boss?,
             ghost awardsOut: seq<int>)
    requires i < |bullets|
    requires ufoSlot == null || ufoSlot == ufo
    requires bossSlot == null || bossSlot == boss
    requires score.State() == AddAll(score0, awards)
    modifies ufo, boss, score
    ensures ufoSlotOut == null || ufoSlotOut == ufo
    ensures bossSlotOut == null || bossSlotOut == boss
    ensures score.State() == AddAll(score0, awardsOut)
    ensures Pass(bulletsOut, esOut, UfoOf(ufo), ufoSlotOut != null, BossOf(boss), bossSlotOut != null, awardsOut)
            == BulletStep(Pass(bullets, es, old(UfoOf(ufo)), ufoSlot != null, old(BossOf(boss)), bossSlot != null, awards),
                          i, v)
  {
    var bullet := bullets[i];
    var removed, killed;
    bulletsOut, esOut, removed, killed := ScanEnemiesFor(bullet, bullets, i, es, score);
    awardsOut := awards;
    if killed {
      AddAllAppend(score0, awards, SCORE_ENEMY_KILL);
      awardsOut := awards + [SCORE_ENEMY_KILL];
    }
    ghost var afterEnemies := Step(Pass(bulletsOut, esOut, UfoOf(ufo), ufoSlot != null, BossOf(boss), bossSlot != null, awardsOut), removed);
    assert afterEnemies == EnemyPhase(Pass(bullets, es, UfoOf(ufo), ufoSlot != null, BossOf(boss), bossSlot != null, awards), bullet, i);
    bulletsOut, ufoSlotOut, bossSlotOut, awardsOut :=
      HitVisitorsFor(bullet, bulletsOut, i, removed, esOut, ufo, ufoSlot, boss, bossSlot, score, v, score0, awardsOut);
  }

  /** The UFO test, then the boss test, of one iteration of checkPlayerBulletCollisions. */
  method HitVisitorsFor(bullet: Bullet, bullets: seq<Bullet>, i: nat, removed: bool, es: seq<Enemy>,
                        ufo: Ufo?, ufoSlot: Ufo?, boss: Boss?, bossSlot: Boss?, score: ScoreManager, v: Variant,
                        ghost score0: ScoreState, ghost awards: seq<int>)
    returns (bulletsOut: seq<Bullet>, ufoSlotOut: Ufo?, bossSlotOut: Boss?, ghost awardsOut: seq<int>)
    requires i <= |bullets|
    requires ufoSlot == null || ufoSlot == ufo
    requires bossSlot == null || bossSlot == boss
    requires score.State() == AddAll(score0, awards)
    modifies ufo, boss, score
    ensures ufoSlotOut == null || ufoSlotOut == ufo
    ensures bossSlotOut == null || bossSlotOut == boss
    ensures score.State() == AddAll(score0, awardsOut)
    ensures Pass(bulletsOut, es, UfoOf(ufo), ufoSlotOut != null, BossOf(boss), bossSlotOut != null, awardsOut)
            == VisitorPhases(Step(Pass(bullets, es, old(UfoOf(ufo)), ufoSlot != null, old(BossOf(boss)), bossSlot != null, awards),
                                  removed), bullet, i, v).pass
  {
    var bossState := BossOf(boss);
    var removedOut;
    bulletsOut, removedOut, ufoSlotOut, awardsOut :=
      HitUfoFor(bullet, bullets, i, removed, es, ufo, ufoSlot, bossState, bossSlot != null, score, v, score0, awards);
    bulletsOut, removedOut, bossSlotOut, awardsOut :=
      HitBossFor(bullet, bulletsOut, i, removedOut, es, UfoOf(ufo), ufoSlotOut != null, boss, bossSlot, score, v, score0, awardsOut);
  }

  /** checkPlayerBulletCollisions, as written or corrected (each bullet spliced out once
      whatever it hits, the UFO and boss checked through the slots this pass clears). */
  method CheckPlayerBulletCollisions(playerBullets: seq<Bullet>, enemies: seq<Enemy>,
                                     ufo: Ufo?, boss: Boss?, score: ScoreManager, v: Variant)
    returns (bullets: seq<Bullet>, es: seq<Enemy>, ufoSlot: Ufo?, bossSlot: Boss?)
    modifies ufo, boss, score
    ensures var p := PlayerBulletPass(playerBullets, enemies, old(UfoOf(ufo)), old(BossOf(boss)), v);
      && bullets == p.bullets && es == p.enemies
      && UfoOf(ufo) == p.ufo && BossOf(boss) == p.boss
      && ufoSlot == (if p.ufoInSlot then ufo else null)
      && bossSlot == (if p.bossInSlot then boss else null)
      && score.State() == AddAll(old(score.State()), p.awards)
  {
    ghost var final := PlayerBulletPass(playerBullets, enemies, UfoOf(ufo), BossOf(boss), v);
    ghost var awards: seq<int> := [];
    ghost var score0 := score.State();
    bullets, es, ufoSlot, bossSlot := playerBullets, enemies, ufo, boss;
    ghost var cur := StartPass(playerBullets, enemies, UfoOf(ufo), BossOf(boss));
    var i := |bullets|;
    while i > 0
      invariant 0 <= i <= |bullets|
      invariant ufoSlot == null || ufoSlot == ufo
      invariant bossSlot == null || bossSlot == boss
      invariant cur == Pass(bullets, es, UfoOf(ufo), ufoSlot != null, BossOf(boss), bossSlot != null, awards)
      invariant PassFrom(cur, i, v) == final
      invariant score.State() == AddAll(score0, awards)
      decreases i
    {
      i := i - 1;
      ghost var next := BulletStep(cur, i, v);
      assert PassFrom(cur, i + 1, v) == PassFrom(next, i, v);
      bullets, es, ufoSlot, bossSlot, awards := ResolveBullet(bullets, i, es, ufo, ufoSlot, boss, bossSlot, score, v, score0, awards);
      cur := next;
    }
  }

  /** How many times x occurs in s. */
  function Count(s: seq<int>, x: int): nat
    decreases |s|
  {
    if |s| == 0 then 0 else Count(s[..|s| - 1], x) + (if s[|s| - 1] == x then 1 else 0)
  }

  lemma CountAppend(s: seq<int>, y: int, x: int)
    ensures Count(s + [y], x) == Count(s, x) + (if y == x then 1 else 0)
  {
    assert (s + [y])[..|s|] == s;
  }

  /** Enemy j overlaps the bullet and no enemy above it does. */
  predicate LastOverlap(b: Bullet, es: seq<Enemy>, j: nat) {
    && j < |es|
    && CheckEntityCollision(BulletBox(b), EnemyBox(es[j]))
    && forall k :: j < k < |es| ==> !CheckEntityCollision(BulletBox(b), EnemyBox(es[k]))
  }

  /** One bullet against the enemy list: with no overlapping enemy nothing changes;
      otherwise only the highest-indexed overlapping enemy is touched, as ScanHit says. */
  lemma ScanEnemiesSpec(b: Bullet, bullets: seq<Bullet>, i: nat, es: seq<Enemy>)
    ensures var r := ScanEnemies(b, bullets, i, es);
      && ((forall j :: 0 <= j < |es| ==> !CheckEntityCollision(BulletBox(b), EnemyBox(es[j])))
          ==> r == EnemyScan(bullets, es, false, false))
      && (forall j: nat :: LastOverlap(b, es, j) ==> ScanHit(b, bullets, i, es, j, r))
  {
    LastHitSpec(b, es, |es|);
    match LastHit(b, es, |es|)
    case None =>
    case Some(j0) =>
      forall j: nat | LastOverlap(b, es, j)
        ensures ScanHit(b, bullets, i, es, j, ScanEnemies(b, bullets, i, es))
      {
        assert j == j0;
        ScanHitAt(b, bullets, i, es, j);
      }
  }

  /** The scan that stops at enemy j leaves the lists as ScanHit says. */
  lemma ScanHitAt(b: Bullet, bullets: seq<Bullet>, i: nat, es: seq<Enemy>, j: nat)
    requires LastHit(b, es, |es|) == Some(j)
    ensures ScanHit(b, bullets, i, es, j, ScanEnemies(b, bullets, i, es))
  {
    var d := es[j].(health := es[j].health - 1, isActive := es[j].isActive && es[j].health - 1 > 0);
    assert es[j].TakeDamage(1).enemy == d;
    var r := ScanEnemies(b, bullets, i, es);
    if d.isActive {
      assert r == EnemyScan(RemoveAt(bullets, i), es[j := d], true, false);
      UpdateSplits(es, j, d);
    } else {
      assert r == EnemyScan(RemoveAt(bullets, i), RemoveAt(es[j := d], j), true, true);
      RemoveUpdated(es, j, d);
    }
  }

  lemma UpdateSplits<T>(s: seq<T>, j: nat, v: T)
    requires j < |s|
    ensures s[j := v] == s[..j] + [v] + s[j + 1..]
  {
  }

  lemma RemoveUpdated<T>(s: seq<T>, j: nat, v: T)
    requires j < |s|
    ensures RemoveAt(s[j := v], j) == s[..j] + s[j + 1..]
  {
    assert s[j := v][..j] == s[..j];
    assert s[j := v][j + 1..] == s[j + 1..];
  }

  /** The outcome when the scan meets enemy j: exactly 1 health lost whatever the
      bullet's damage, the bullet spliced out, the enemy spliced out exactly when it is no
      longer active (the kill being reported), every other enemy left in place. */
  predicate ScanHit(b: Bullet, bullets: seq<Bullet>, i: nat, es: seq<Enemy>, j: nat, r: EnemyScan)
    requires j < |es|
  {
    var d := es[j].(health := es[j].health - 1, isActive := es[j].isActive && es[j].health - 1 > 0);
    && r.hit
    && r.bullets == RemoveAt(bullets, i)
    && (r.killed <==> !d.isActive)
    && r.enemies == es[..j] + (if d.isActive then [d] else []) + es[j + 1..]
  }

  /** Whether the bullet at index i hits anything the corrected pass tests: an enemy, or
      the UFO or boss still in its slot. */
  predicate HitsSomething(p: Pass, i: nat)
    requires i < |p.bullets|
  {
    var b := p.bullets[i];
    || LastHit(b, p.enemies, |p.enemies|).Some?
    || (p.ufo.Some? && p.ufoInSlot && CheckEntityCollision(BulletBox(b), UfoBox(p.ufo.value)))
    || (p.boss.Some? && p.bossInSlot && CheckEntityCollision(BulletBox(b), BossBox(p.boss.value)))
  }

  /** In the corrected pass a bullet that hits anything is spliced out exactly once, and
      the other bullets stay in order; a bullet that hits nothing leaves the list alone. */
  lemma CorrectedStepSplicesOnce(p: Pass, i: nat)
    requires i < |p.bullets|
    ensures BulletStep(p, i, Corrected).bullets == if HitsSomething(p, i) then RemoveAt(p.bullets, i) else p.bullets
  {
  }

  /** The damage a corrected step does to the UFO and boss: one point each, exactly when
      the bullet overlaps one still in its slot, even when the bullet also hit an enemy
      (the enemy loop's break leaves only that loop). */
  lemma CorrectedStepDamage(p: Pass, i: nat)
    requires i < |p.bullets|
    ensures var q := BulletStep(p, i, Corrected);
      var b := p.bullets[i];
      && q.ufo == (if p.ufo.Some? && p.ufoInSlot && CheckEntityCollision(BulletBox(b), UfoBox(p.ufo.value))
                   then Some(UfoDamaged(p.ufo.value, 1)) else p.ufo)
      && q.boss == (if p.boss.Some? && p.bossInSlot && CheckEntityCollision(BulletBox(b), BossBox(p.boss.value))
                    then Some(BossDamaged(p.boss.value, 1)) else p.boss)
  {
  }

  /** Which kills one step awards. */
  datatype Kills = Kills(enemy: bool, ufo: bool, boss: bool)

  function KillAwards(k: Kills): seq<int> {
    (if k.enemy then [SCORE_ENEMY_KILL] else []) + (if k.ufo then [SCORE_UFO_KILL] else [])
    + (if k.boss then [SCORE_BOSS_KILL] else [])
  }

  /** The kills of the step for bullet i: the enemy the scan finds dies, or the UFO (the
      boss) is checked, overlaps and dies of the 1 damage. */
  function StepKills(p: Pass, i: nat, v: Variant): Kills
    requires i < |p.bullets|
  {
    var b := p.bullets[i];
    Kills(ScanEnemies(b, p.bullets, i, p.enemies).killed,
          p.ufo.Some? && (v == AsWritten || p.ufoInSlot)
          && CheckEntityCollision(BulletBox(b), UfoBox(p.ufo.value)) && !UfoDamaged(p.ufo.value, 1).isActive,
          p.boss.Some? && (v == AsWritten || p.bossInSlot)
          && CheckEntityCollision(BulletBox(b), BossBox(p.boss.value)) && !BossDamaged(p.boss.value, 1).isActive)
  }

  lemma EnemyPhaseAwards(p: Pass, b: Bullet, i: nat)
    requires i <= |p.bullets|
    ensures var s := EnemyPhase(p, b, i).pass;
      var killed := ScanEnemies(b, p.bullets, i, p.enemies).killed;
      && s.awards == p.awards + (if killed then [SCORE_ENEMY_KILL] else [])
      && |s.enemies| == |p.enemies| - (if killed then 1 else 0)
      && s.ufo == p.ufo && s.ufoInSlot == p.ufoInSlot && s.boss == p.boss && s.bossInSlot == p.bossInSlot
  {
    match LastHit(b, p.enemies, |p.enemies|)
    case None =>
    case Some(j) =>
      if ScanEnemies(b, p.bullets, i, p.enemies).killed {
        assert |RemoveAt(p.enemies[j := p.enemies[j].TakeDamage(1).enemy], j)| == |p.enemies| - 1;
      }
  }

  lemma UfoPhaseAwards(st: Step, b: Bullet, i: nat, v: Variant)
    requires i <= |st.pass.bullets|
    ensures var p := st.pass;
      var s := UfoPhase(st, b, i, v).pass;
      var u := p.ufo.Some? && (v == AsWritten || p.ufoInSlot)
               && CheckEntityCollision(BulletBox(b), UfoBox(p.ufo.value)) && !UfoDamaged(p.ufo.value, 1).isActive;
      && s.awards == p.awards + (if u then [SCORE_UFO_KILL] else [])
      && s.enemies == p.enemies && s.boss == p.boss && s.bossInSlot == p.bossInSlot
      && (u ==> !s.ufo.value.isActive)
      && (s.ufoInSlot <==> p.ufoInSlot && !u)
  {
  }

  lemma BossPhaseAwards(st: Step, b: Bullet, i: nat, v: Variant)
    requires i <= |st.pass.bullets|
    ensures var p := st.pass;
      var s := BossPhase(st, b, i, v).pass;
      var d := p.boss.Some? && (v == AsWritten || p.bossInSlot)
               && CheckEntityCollision(BulletBox(b), BossBox(p.boss.value)) && !BossDamaged(p.boss.value, 1).isActive;
      && s.awards == p.awards + (if d then [SCORE_BOSS_KILL] else [])
      && s.enemies == p.enemies && s.ufo == p.ufo && s.ufoInSlot == p.ufoInSlot
      && (d ==> !s.boss.value.isActive)
      && (s.bossInSlot <==> p.bossInSlot && !d)
  {
  }

  /** The awards of one step of either variant: an enemy kill, then a UFO kill, then a
      boss kill, each at most once. An enemy kill is exactly one enemy spliced out; a
      UFO or boss kill leaves it inactive and out of its slot, and a slot is cleared by
      nothing else. */
  lemma StepAwards(p: Pass, i: nat, v: Variant)
    requires i < |p.bullets|
    ensures var q := BulletStep(p, i, v);
      var k := StepKills(p, i, v);
      && q.awards == p.awards + KillAwards(k)
      && |q.enemies| == |p.enemies| - (if k.enemy then 1 else 0)
      && (k.ufo ==> !q.ufo.value.isActive && !q.ufoInSlot)
      && (k.boss ==> !q.boss.value.isActive && !q.bossInSlot)
      && (q.ufoInSlot <==> p.ufoInSlot && !k.ufo)
      && (q.bossInSlot <==> p.bossInSlot && !k.boss)
  {
    var b := p.bullets[i];
    var k := StepKills(p, i, v);
    var s1 := EnemyPhase(p, b, i);
    EnemyPhaseAwards(p, b, i);
    var s2 := UfoPhase(s1, b, i, v);
    UfoPhaseAwards(s1, b, i, v);
    BossPhaseAwards(s2, b, i, v);
    assert p.awards + KillAwards(k)
      == p.awards + (if k.enemy then [SCORE_ENEMY_KILL] else []) + (if k.ufo then [SCORE_UFO_KILL] else [])
         + (if k.boss then [SCORE_BOSS_KILL] else []);
  }

  lemma CountKillAwards(a: seq<int>, k: Kills, x: int)
    ensures Count(a + KillAwards(k), x) == Count(a, x)
      + (if k.enemy && x == SCORE_ENEMY_KILL then 1 else 0)
      + (if k.ufo && x == SCORE_UFO_KILL then 1 else 0)
      + (if k.boss && x == SCORE_BOSS_KILL then 1 else 0)
  {
    var a1 := if k.enemy then a + [SCORE_ENEMY_KILL] else a;
    var a2 := if k.ufo then a1 + [SCORE_UFO_KILL] else a1;
    var a3 := if k.boss then a2 + [SCORE_BOSS_KILL] else a2;
    assert a + KillAwards(k) == a3;
    if k.enemy { CountAppend(a, SCORE_ENEMY_KILL, x); }
    if k.ufo { CountAppend(a1, SCORE_UFO_KILL, x); }
    if k.boss { CountAppend(a2, SCORE_BOSS_KILL, x); }
  }

  /** One corrected step awards the UFO kill exactly when it clears the UFO slot, and
      likewise the boss kill; no step refills a slot. */
  lemma StepVisitorCounts(p: Pass, i: nat)
    requires i < |p.bullets|
    ensures var q := BulletStep(p, i, Corrected);
      && Count(q.awards, SCORE_UFO_KILL) == Count(p.awards, SCORE_UFO_KILL) + (if p.ufoInSlot && !q.ufoInSlot then 1 else 0)
      && Count(q.awards, SCORE_BOSS_KILL) == Count(p.awards, SCORE_BOSS_KILL) + (if p.bossInSlot && !q.bossInSlot then 1 else 0)
      && (q.ufoInSlot ==> p.ufoInSlot)
      && (q.bossInSlot ==> p.bossInSlot)
  {
    var k := StepKills(p, i, Corrected);
    StepAwards(p, i, Corrected);
    CountKillAwards(p.awards, k, SCORE_UFO_KILL);
    CountKillAwards(p.awards, k, SCORE_BOSS_KILL);
  }

  /** One step of either variant: the enemy kills it awards are the enemies it removes. */
  lemma StepEnemyCount(p: Pass, i: nat, v: Variant)
    requires i < |p.bullets|
    ensures var q := BulletStep(p, i, v);
      Count(q.awards, SCORE_ENEMY_KILL) - Count(p.awards, SCORE_ENEMY_KILL) == |p.enemies| - |q.enemies|
  {
    StepAwards(p, i, v);
    CountKillAwards(p.awards, StepKills(p, i, v), SCORE_ENEMY_KILL);
  }

  /** Over a corrected pass, the UFO kill is awarded exactly when its slot goes from
      set to cleared, and the same for the boss. */
  lemma {:induction false} CorrectedPassAwardsOnce(p: Pass, k: nat)
    requires k <= |p.bullets|
    ensures var q := PassFrom(p, k, Corrected);
      && Count(q.awards, SCORE_UFO_KILL) == Count(p.awards, SCORE_UFO_KILL) + (if p.ufoInSlot && !q.ufoInSlot then 1 else 0)
      && Count(q.awards, SCORE_BOSS_KILL) == Count(p.awards, SCORE_BOSS_KILL) + (if p.bossInSlot && !q.bossInSlot then 1 else 0)
      && (q.ufoInSlot ==> p.ufoInSlot)
      && (q.bossInSlot ==> p.bossInSlot)
    decreases k
  {
    if k > 0 {
      StepVisitorCounts(p, k - 1);
      CorrectedPassAwardsOnce(BulletStep(p, k - 1, Corrected), k - 1);
    }
  }

  /** Over a pass of either variant a slot is never refilled, and clearing the UFO (the
      boss) slot always awards UFO_KILL (BOSS_KILL): at least once, since the pass as
      written can award it again (see CollisionFindings). */
  lemma {:induction false} SlotClearsAreAwarded(p: Pass, k: nat, v: Variant)
    requires k <= |p.bullets|
    ensures var q := PassFrom(p, k, v);
      && Count(q.awards, SCORE_UFO_KILL) >= Count(p.awards, SCORE_UFO_KILL) + (if p.ufoInSlot && !q.ufoInSlot then 1 else 0)
      && Count(q.awards, SCORE_BOSS_KILL) >= Count(p.awards, SCORE_BOSS_KILL) + (if p.bossInSlot && !q.bossInSlot then 1 else 0)
      && (q.ufoInSlot ==> p.ufoInSlot)
      && (q.bossInSlot ==> p.bossInSlot)
    decreases k
  {
    if k > 0 {
      StepAwards(p, k - 1, v);
      CountKillAwards(p.awards, StepKills(p, k - 1, v), SCORE_UFO_KILL);
      CountKillAwards(p.awards, StepKills(p, k - 1, v), SCORE_BOSS_KILL);
      SlotClearsAreAwarded(BulletStep(p, k - 1, v), k - 1, v);
    }
  }

  /** In either variant, every enemy kill awarded is one enemy spliced out of the list. */
  lemma {:induction false} EnemyKillsAreRemovals(p: Pass, k: nat, v: Variant)
    requires k <= |p.bullets|
    ensures var q := PassFrom(p, k, v);
      Count(q.awards, SCORE_ENEMY_KILL) - Count(p.awards, SCORE_ENEMY_KILL) == |p.enemies| - |q.enemies|
    decreases k
  {
    if k > 0 {
      StepEnemyCount(p, k - 1, v);
      EnemyKillsAreRemovals(BulletStep(p, k - 1, v), k - 1, v);
    }
  }

  /** The corrected checkPlayerBulletCollisions awards the UFO kill at most once, exactly
      when it clears the UFO slot, and likewise the boss kill; every enemy kill awarded is
      an enemy removed. */
  lemma CorrectedPassSpec(bullets: seq<Bullet>, enemies: seq<Enemy>, ufo: Option<UfoState>,
                          boss: Option<BossState>)
    ensures var q := PlayerBulletPass(bullets, enemies, ufo, boss, Corrected);
      && Count(q.awards, SCORE_UFO_KILL) == (if ufo.Some? && !q.ufoInSlot then 1 else 0)
      && Count(q.awards, SCORE_BOSS_KILL) == (if boss.Some? && !q.bossInSlot then 1 else 0)
      && Count(q.awards, SCORE_ENEMY_KILL) == |enemies| - |q.enemies|
      && (ufo.None? ==> !q.ufoInSlot)
      && (boss.None? ==> !q.bossInSlot)
  {
    CorrectedPassAwardsOnce(StartPass(bullets, enemies, ufo, boss), |bullets|);
    EnemyKillsAreRemovals(StartPass(bullets, enemies, ufo, boss), |bullets|, Corrected);
  }

  /** The enemy bullets after checkEnemyBulletCollisions against a player: each one
      overlapping the player deactivated, the others unchanged. */
  function EnemyBulletsHit(bs: seq<EnemyBullet>, p: PlayerState): seq<EnemyBullet> {
    seq(|bs|, k requires 0 <= k < |bs| =>
      if CheckEntityCollision(EnemyBulletBox(bs[k]), PlayerBox(p)) then bs[k].(isActive := false) else bs[k])
  }

  /** How many of the first k enemy bullets overlap the player: one handleGameOver each. */
  function HitCount(bs: seq<EnemyBullet>, p: PlayerState, k: nat): nat
    requires k <= |bs|
    decreases k
  {
    if k == 0 then 0
    else HitCount(bs, p, k - 1) + (if CheckEntityCollision(EnemyBulletBox(bs[k - 1]), PlayerBox(p)) then 1 else 0)
  }

  /** checkEnemyBulletCollisions: nothing without a player; otherwise every overlapping
      enemy bullet is deactivated and asks for a game over. */
  method CheckEnemyBulletCollisions(enemyBullets: seq<EnemyBullet>, player: Player?)
    returns (bullets: seq<EnemyBullet>, gameOverRequests: nat)
    ensures player == null ==> bullets == enemyBullets && gameOverRequests == 0
    ensures player != null ==>
      && bullets == EnemyBulletsHit(enemyBullets, player.State())
      && gameOverRequests == HitCount(enemyBullets, player.State(), |enemyBullets|)
  {
    bullets, gameOverRequests := enemyBullets, 0;
    if player == null {
      return;
    }
    var box := PlayerBox(player.State());
    for k := 0 to |enemyBullets|
      invariant |bullets| == |enemyBullets|
      invariant forall m :: 0 <= m < k ==> bullets[m] == EnemyBulletsHit(enemyBullets, player.State())[m]
      invariant forall m :: k <= m < |enemyBullets| ==> bullets[m] == enemyBullets[m]
      invariant gameOverRequests == HitCount(enemyBullets, player.State(), k)
    {
      if CheckEntityCollision(EnemyBulletBox(enemyBullets[k]), box) {
        gameOverRequests := gameOverRequests + 1;
        bullets := bullets[k := enemyBullets[k].(isActive := false)];
      }
    }
  }

  /** Deactivating the hit enemy bullets moves none of them, and leaves active exactly
      those that were active and miss the player. */
  lemma EnemyBulletsHitSpec(bs: seq<EnemyBullet>, p: PlayerState)
    ensures var r := EnemyBulletsHit(bs, p);
      && |r| == |bs|
      && (forall k :: 0 <= k < |bs| ==> r[k].x == bs[k].x && r[k].y == bs[k].y)
      && (forall k :: 0 <= k < |bs| ==>
            (r[k].isActive <==> bs[k].isActive && !CheckEntityCollision(EnemyBulletBox(bs[k]), PlayerBox(p))))
  {
  }

  /** A game over is requested exactly when some enemy bullet overlaps the player. */
  lemma {:induction false} HitCountSpec(bs: seq<EnemyBullet>, p: PlayerState, k: nat)
    requires k <= |bs|
    ensures HitCount(bs, p, k) > 0 <==> exists m :: 0 <= m < k && CheckEntityCollision(EnemyBulletBox(bs[m]), PlayerBox(p))
    ensures HitCount(bs, p, k) <= k
    decreases k
  {
    if k > 0 {
      HitCountSpec(bs, p, k - 1);
    }
  }

  /** A box shrunk about its centre by COLLISION.ADJUSTMENT_FACTOR. */
  function Shrunk(b: Box): Box {
    b.(width := b.width * COLLISION_ADJUSTMENT_FACTOR, height := b.height * COLLISION_ADJUSTMENT_FACTOR)
  }

  /** The enemy's bottom edge is past COLLISION.GAME_OVER_THRESHOLD of the canvas height. */
  predicate ReachesBottom(e: Enemy, canvasHeight: real) {
    e.y + e.height / 2.0 > canvasHeight * COLLISION_GAME_OVER_THRESHOLD
  }

  /** What ends the game in checkPlayerEnemyCollisions for one enemy: reaching the
      bottom, or overlapping the player with both boxes shrunk. */
  predicate EndsGame(p: PlayerState, e: Enemy, canvasHeight: real) {
    ReachesBottom(e, canvasHeight) || CheckEntityCollision(Shrunk(PlayerBox(p)), Shrunk(EnemyBox(e)))
  }

  /** checkPlayerEnemyCollisions: with a player and collisions enabled, the first enemy
      that reaches the bottom or touches the player asks for one game over and the check
      returns. */
  method CheckPlayerEnemyCollisions(player: Player?, enemies: seq<Enemy>, collisionEnabled: bool,
                                    canvasHeight: real)
    returns (gameOverRequested: bool)
    ensures gameOverRequested <==>
      player != null && collisionEnabled && exists k :: 0 <= k < |enemies| && EndsGame(player.State(), enemies[k], canvasHeight)
  {
    if player == null || !collisionEnabled {
      return false;
    }
    var i := 0;
    while i < |enemies|
      invariant 0 <= i <= |enemies|
      invariant forall k :: 0 <= k < i ==> !EndsGame(player.State(), enemies[k], canvasHeight)
    {
      var enemy := enemies[i];
      if enemy.y + enemy.height / 2.0 > canvasHeight * COLLISION_GAME_OVER_THRESHOLD {
        return true;
      }
      var adjustment := COLLISION_ADJUSTMENT_FACTOR;
      var collision :=
        && player.x - (player.width * adjustment) / 2.0 < enemy.x + (enemy.width * adjustment) / 2.0
        && player.x + (player.width * adjustment) / 2.0 > enemy.x - (enemy.width * adjustment) / 2.0
        && player.y - (player.height * adjustment) / 2.0 < enemy.y + (enemy.height * adjustment) / 2.0
        && player.y + (player.height * adjustment) / 2.0 > enemy.y - (enemy.height * adjustment) / 2.0;
      if collision {
        return true;
      }
      i := i + 1;
    }
    return false;
  }

  /** The shrunk test is the more forgiving one: touching with shrunk boxes implies
      overlapping with the full ones, for an enemy of non-negative size. */
  lemma ShrunkOverlapImpliesOverlap(p: PlayerState, e: Enemy)
    requires e.width >= 0.0 && e.height >= 0.0
    ensures CheckEntityCollision(Shrunk(PlayerBox(p)), Shrunk(EnemyBox(e)))
            ==> CheckEntityCollision(PlayerBox(p), EnemyBox(e))
  {
  }
}
