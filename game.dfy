/** The game state and the per-frame step that drives it: collision check,
    jump kinematics, the spawn timer, and advance-and-cull of the obstacles,
    in that order. Time, the random draws, the sine and the hit boxes come
    from outside and are parameters. */
module GameLoop {
  import opened Collision
  import opened Kinematics
  import opened Obstacles

  /** Some obstacle's box intersects the player's box. */
  predicate Collides(s: seq<Obstacle>, boxOf: Obstacle -> Box, playerBox: Box) {
    exists i :: 0 <= i < |s| && Intersects(boxOf(s[i]), playerBox)
  }

  class Game {
    /** The sine the height is computed from; its values are not modelled. */
    const sine: real -> real
    var playerAngle: real
    var playerY: real
    var nextObstacleTime: real
    /** The live obstacles, in the order the move loop visits them. */
    var obstacles: seq<Obstacle>

    /** The player is either untouched or placed by its angle, and every live
        obstacle is on screen with a scale a spawn can produce. */
    ghost predicate Valid()
      reads this
    {
      PlayerAt(sine, playerAngle, playerY) && AllInPlay(obstacles)
    }

    /** The state when the game starts: the player mesh at its default height
        0 with angle 0, the spawn timer at 0, and no obstacles. */
    constructor (sine: real -> real)
      ensures Valid()
      ensures this.sine == sine
      ensures playerAngle == 0.0 && playerY == 0.0
      ensures nextObstacleTime == 0.0 && obstacles == []
    {
      this.sine := sine;
      playerAngle := 0.0;
      playerY := 0.0;
      nextObstacleTime := 0.0;
      obstacles := [];
    }

    /** Advances the angle by `speed` and puts the player at the height for
        the new angle, which is never below the floor. */
    method Jump(speed: real)
      modifies this`playerAngle, this`playerY
      ensures playerAngle == old(playerAngle) + speed
      ensures playerY == Height(sine, playerAngle) && playerY >= Floor
    {
      playerAngle := playerAngle + speed;
      playerY := Height(sine, playerAngle);
    }

    /** Appends one obstacle at the spawn line with scale `1 + r`. */
    method SpawnObstacle(r: real)
      requires 0.0 <= r < 1.0
      modifies this`obstacles
      ensures obstacles == old(obstacles) + [NewObstacle(r)]
      ensures obstacles[|obstacles| - 1].x == SpawnX
      ensures 1.0 <= obstacles[|obstacles| - 1].scale < 2.0
    {
      var o := NewObstacle(r);
      obstacles := obstacles + [o];
    }

    /** Scans the obstacles in order for one whose box meets the player's box
        and stops at the first. `examined` is how many boxes were computed:
        all of them when there is no hit, up to and including the first hit
        otherwise. Nothing is changed. */
    method CheckCollisions(playerBoxOf: real -> Box, boxOf: Obstacle -> Box)
      returns (hit: bool, ghost examined: nat)
      ensures hit <==> Collides(obstacles, boxOf, playerBoxOf(playerY))
      ensures examined <= |obstacles|
      ensures hit ==> 0 < examined && Intersects(boxOf(obstacles[examined - 1]), playerBoxOf(playerY))
      ensures !hit ==> examined == |obstacles|
      ensures forall i :: 0 <= i < examined && !(hit && i == examined - 1) ==>
                !Intersects(boxOf(obstacles[i]), playerBoxOf(playerY))
    {
      var playerBox := playerBoxOf(playerY);
      var i := 0;
      while i < |obstacles|
        invariant i <= |obstacles|
        invariant forall j :: 0 <= j < i ==> !Intersects(boxOf(obstacles[j]), playerBox)
      {
        var hitbox := boxOf(obstacles[i]);
        if Intersects(hitbox, playerBox) {
          return true, i + 1;
        }
        i := i + 1;
      }
      return false, i;
    }

    /** One pass of the move loop: walks the obstacles by index, moving the
        current one `ObstacleSpeed * delta` toward the player and removing it
        at once when that puts it past the removal line. A removal shifts the
        rest down by one, and the index still advances. */
    method AdvanceObstacles(delta: real)
      modifies this`obstacles
      ensures obstacles == MovePass(old(obstacles), ObstacleSpeed * delta)
    {
      ghost var dx := ObstacleSpeed * delta;
      var i := 0;
      while i < |obstacles|
        invariant i <= |obstacles| + 1
        invariant i <= |obstacles| ==> obstacles[..i] + MovePass(obstacles[i..], dx) == MovePass(old(obstacles), dx)
        invariant i == |obstacles| + 1 ==> obstacles == MovePass(old(obstacles), dx)
        decreases |obstacles| + 1 - i
      {
        if OffScreen(Shift(obstacles[i], dx)) {
          MovePassStepRemove(obstacles, i, dx);
        } else {
          MovePassStepKeep(obstacles, i, dx);
        }
        obstacles := obstacles[i := Shift(obstacles[i], ObstacleSpeed * delta)];
        if OffScreen(obstacles[i]) {
          obstacles := obstacles[..i] + obstacles[i + 1..];
        }
        i := i + 1;
      }
      if i == |obstacles| {
        assert obstacles[i..] == [] && obstacles[..i] == obstacles;
      }
    }

    /** One frame. `hit` reports whether the player touched an obstacle at
        the frame's start; nothing else follows from a hit. */
    method Update(delta: real, elapsed: real, jumpPressed: bool, rScale: real, rTimer: real,
                  playerBoxOf: real -> Box, boxOf: Obstacle -> Box)
      returns (hit: bool)
      requires Valid()
      requires 0.0 <= rScale < 1.0 && 0.0 <= rTimer < 1.0
      modifies this
      ensures Valid()
      ensures hit <==> Collides(old(obstacles), boxOf, playerBoxOf(old(playerY)))
      ensures jumpPressed ==>
                playerAngle == old(playerAngle) + JumpSpeed && playerY == Height(sine, playerAngle)
      ensures !jumpPressed && old(playerY) > Floor ==>
                playerAngle == old(playerAngle) + JumpGravity && playerY == Height(sine, playerAngle)
      ensures !jumpPressed && old(playerY) <= Floor ==>
                playerAngle == old(playerAngle) && playerY == old(playerY)
      ensures elapsed > old(nextObstacleTime) ==>
                && nextObstacleTime == NextSpawnTime(elapsed, rTimer)
                && old(nextObstacleTime) < nextObstacleTime < elapsed + SpawnWindow
                && obstacles == MovePass(old(obstacles) + [NewObstacle(rScale)], ObstacleSpeed * delta)
      ensures elapsed <= old(nextObstacleTime) ==>
                && nextObstacleTime == old(nextObstacleTime)
                && obstacles == MovePass(old(obstacles), ObstacleSpeed * delta)
    {
      ghost var examined;
      hit, examined := CheckCollisions(playerBoxOf, boxOf);
      if jumpPressed {
        Jump(JumpSpeed);
      } else {
        if playerY > Floor {
          Jump(JumpGravity);
        }
      }

      if elapsed > nextObstacleTime {
        SpawnObstacle(rScale);
        nextObstacleTime := NextSpawnTime(elapsed, rTimer);
      }
      assert AllInPlay(obstacles);

      MovePassKeepsInPlay(obstacles, ObstacleSpeed * delta);
      AdvanceObstacles(delta);
    }
  }

  /** Frames from the start of a game, with a sine that is always 0 and boxes
      that never meet. */
  method FrameScenarios() {
    var g := new Game(a => 0.0);
    var unitBox := _ => Box(Vec3(0.0, 0.0, 0.0), Vec3(1.0, 1.0, 1.0));
    var farBox := _ => Box(Vec3(5.0, 5.0, 5.0), Vec3(6.0, 6.0, 6.0));

    // First frame: the clock reads 0, which is not after the timer's 0.
    var hit := g.Update(0.0, 0.0, false, 0.5, 0.25, unitBox, farBox);
    assert g.obstacles == [] && g.nextObstacleTime == 0.0;
    // Not pressed and not above the floor: the player stays at height 0.
    assert g.playerAngle == 0.0 && g.playerY == 0.0;

    // Second frame: a spawn fires and the new obstacle moves in the same frame.
    hit := g.Update(0.02, 0.02, true, 0.5, 0.25, unitBox, farBox);
    assert g.obstacles == MovePass([Obstacle(40.0, 1.5)], 0.2);
    assert g.obstacles == [Obstacle(39.8, 1.5)];
    assert g.nextObstacleTime == 1.02;
    assert g.playerAngle == 0.05 && g.playerY == 1.38;

    // Third frame: released above the floor, gravity advances the angle.
    hit := g.Update(0.02, 0.04, false, 0.5, 0.25, unitBox, farBox);
    assert g.playerAngle == 0.05 + 0.1;
    assert g.obstacles == [Obstacle(39.6, 1.5)];
  }
}
