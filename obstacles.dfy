/** The obstacle pool: spawning, and one pass of the move loop that advances
    every obstacle it visits and removes those that have left the screen.

    The pass walks the live collection by index while removing from it, so the
    element that slides into a removed element's slot is not visited in that
    pass (see MovePass). */
module Obstacles {

  /** Distance per second obstacles travel toward the player. */
  const ObstacleSpeed: real := 10.0
  /** Obstacles whose x drops below this are removed. */
  const MinX: real := -20.0
  /** Where new obstacles appear. */
  const SpawnX: real := 40.0
  /** The spawn delay is drawn uniformly from [0, SpawnWindow). */
  const SpawnWindow: real := 4.0

  /** A live obstacle: its horizontal position and its uniform scale factor
      (y and z stay at the template's values and are not modelled). */
  datatype Obstacle = Obstacle(x: real, scale: real)

  /** The obstacle `spawnObstacle` creates from a random draw `r` in [0, 1). */
  function NewObstacle(r: real): (o: Obstacle)
    requires 0.0 <= r < 1.0
    ensures o.x == SpawnX
    ensures 1.0 <= o.scale < 2.0
  {
    Obstacle(SpawnX, r + 1.0)
  }

  /** The time of the next spawn, drawn when a spawn fires at `elapsed`. */
  function NextSpawnTime(elapsed: real, r: real): (t: real)
    requires 0.0 <= r < 1.0
    ensures elapsed <= t < elapsed + SpawnWindow
  {
    elapsed + r * SpawnWindow
  }

  /** `o` moved `dx` toward the player. */
  function Shift(o: Obstacle, dx: real): (moved: Obstacle) {
    o.(x := o.x - dx)
  }

  /** `o` is past the removal line. */
  predicate OffScreen(o: Obstacle) {
    o.x < MinX
  }

  /** The collection after one pass of the move loop with step `dx`. The
      loop moves the obstacle it is at; if that one is now off screen it is
      removed and the next obstacle takes its index, so the loop's next step
      lands on the one after: the next obstacle stays where it was. */
  function MovePass(s: seq<Obstacle>, dx: real): (r: seq<Obstacle>)
    ensures |r| <= |s|
    decreases |s|
  {
    if s == [] then []
    else if OffScreen(Shift(s[0], dx)) then
      if |s| == 1 then [] else [s[1]] + MovePass(s[2..], dx)
    else [Shift(s[0], dx)] + MovePass(s[1..], dx)
  }

  /** One step of the loop at index `i` when the moved obstacle stays: the
      done part grows by the moved obstacle. */
  lemma MovePassStepKeep(cur: seq<Obstacle>, i: nat, dx: real)
    requires i < |cur| && !OffScreen(Shift(cur[i], dx))
    ensures var next := cur[i := Shift(cur[i], dx)];
      next[..i + 1] + MovePass(next[i + 1..], dx) == cur[..i] + MovePass(cur[i..], dx)
  {
  }

  /** One step of the loop at index `i` when the moved obstacle is removed:
      the obstacle after it slides into index `i` and the index passes it. */
  lemma MovePassStepRemove(cur: seq<Obstacle>, i: nat, dx: real)
    requires i < |cur| && OffScreen(Shift(cur[i], dx))
    ensures var next := cur[..i] + cur[i + 1..];
      && (i + 1 <= |next| ==> next[..i + 1] + MovePass(next[i + 1..], dx) == cur[..i] + MovePass(cur[i..], dx))
      && (i == |next| ==> next == cur[..i] + MovePass(cur[i..], dx))
  {
    var next := cur[..i] + cur[i + 1..];
    assert cur[i..][0] == cur[i];
    if i + 1 < |cur| {
      assert cur[i..][1] == cur[i + 1] && cur[i..][2..] == cur[i + 2..];
      assert next[..i + 1] == cur[..i] + [cur[i + 1]];
      assert next[i + 1..] == cur[i + 2..];
    } else {
      assert next == cur[..i];
    }
  }

  /** What a pass does to one obstacle. */
  datatype Fate = Moved | Removed | Skipped

  /** Fate `f[j]` agrees with the loop's rules: obstacle `j` is skipped
      exactly when the one before it was removed, and a visited obstacle is
      removed exactly when moving it puts it off screen. */
  ghost predicate FateAt(s: seq<Obstacle>, dx: real, f: seq<Fate>, j: int)
    requires |f| == |s| && 0 <= j < |f|
  {
    && (f[j] == Skipped <==> 0 < j && f[j - 1] == Removed)
    && (f[j] != Skipped ==> (f[j] == Removed <==> OffScreen(Shift(s[j], dx))))
  }

  /** `f` gives every obstacle of `s` the fate the loop's rules assign. */
  ghost predicate Explains(s: seq<Obstacle>, dx: real, f: seq<Fate>) {
    |f| == |s| && forall j :: 0 <= j < |f| ==> FateAt(s, dx, f, j)
  }

  /** The collection that fates `f` leave, in the original order: moved
      obstacles shifted by `dx`, skipped ones unchanged, removed ones gone. */
  function Survivors(s: seq<Obstacle>, f: seq<Fate>, dx: real): (left: seq<Obstacle>)
    requires |f| == |s|
    decreases |s|
  {
    if s == [] then []
    else
      var head := match f[0]
        case Moved => [Shift(s[0], dx)]
        case Skipped => [s[0]]
        case Removed => [];
      head + Survivors(s[1..], f[1..], dx)
  }

  /** Fates of a suffix that starts at a visited obstacle explain the suffix,
      and the other way round when the fates before it are right. */
  lemma ExplainsSplit(s: seq<Obstacle>, dx: real, f: seq<Fate>, k: nat)
    requires |f| == |s| && 0 < k <= |s| && f[k - 1] != Removed
    requires forall j :: 0 <= j < k ==> FateAt(s, dx, f, j)
    ensures Explains(s, dx, f) <==> Explains(s[k..], dx, f[k..])
  {
    var s', f' := s[k..], f[k..];
    if Explains(s, dx, f) {
      forall j | 0 <= j < |f'| ensures FateAt(s', dx, f', j) {
        assert FateAt(s, dx, f, k + j);
        assert f'[j] == f[k + j] && s'[j] == s[k + j];
        if j > 0 {
          assert f'[j - 1] == f[k + j - 1];
        }
      }
    }
    if Explains(s', dx, f') {
      forall j | k <= j < |f| ensures FateAt(s, dx, f, j) {
        assert FateAt(s', dx, f', j - k);
        assert f'[j - k] == f[j] && s'[j - k] == s[j];
        if j > k {
          assert f'[j - k - 1] == f[j - 1];
        }
      }
    }
  }

  /** A prefix of an explanation explains the prefix. */
  lemma ExplainsPrefix(s: seq<Obstacle>, dx: real, f: seq<Fate>, k: nat)
    requires Explains(s, dx, f) && k <= |s|
    ensures Explains(s[..k], dx, f[..k])
  {
    forall j | 0 <= j < k ensures FateAt(s[..k], dx, f[..k], j) {
      assert FateAt(s, dx, f, j);
    }
  }

  /** Every collection has an explanation of its pass. */
  lemma {:induction false} ExplanationExists(s: seq<Obstacle>, dx: real)
    ensures exists f :: Explains(s, dx, f)
    decreases |s|
  {
    if s == [] {
      assert Explains(s, dx, []);
    } else if OffScreen(Shift(s[0], dx)) {
      if |s| == 1 {
        assert FateAt(s, dx, [Removed], 0);
        assert Explains(s, dx, [Removed]);
      } else {
        ExplanationExists(s[2..], dx);
        var g :| Explains(s[2..], dx, g);
        var f := [Removed, Skipped] + g;
        assert f[2..] == g;
        if |s| > 2 {
          assert FateAt(s, dx, f, 0) && FateAt(s, dx, f, 1);
          ExplainsSplit(s, dx, f, 2);
        } else {
          assert FateAt(s, dx, f, 0) && FateAt(s, dx, f, 1);
        }
        assert Explains(s, dx, f);
      }
    } else {
      ExplanationExists(s[1..], dx);
      var g :| Explains(s[1..], dx, g);
      var f := [Moved] + g;
      assert f[1..] == g;
      assert FateAt(s, dx, f, 0);
      ExplainsSplit(s, dx, f, 1);
      assert Explains(s, dx, f);
    }
  }

  /** The loop's rules fix every fate: a collection has one explanation. */
  lemma ExplainsUnique(s: seq<Obstacle>, dx: real, f: seq<Fate>, g: seq<Fate>)
    requires Explains(s, dx, f) && Explains(s, dx, g)
    ensures f == g
  {
    var j := 0;
    while j < |f|
      invariant j <= |f|
      invariant forall k :: 0 <= k < j ==> f[k] == g[k]
    {
      assert FateAt(s, dx, f, j) && FateAt(s, dx, g, j);
      j := j + 1;
    }
  }

  /** The pass leaves exactly the survivors of any explanation of it: each
      visited obstacle moves by exactly `dx`, it is removed in the same step
      exactly when that puts it off screen, the obstacle after a removed one
      is left where it was, and nothing is added or reordered. */
  lemma {:induction false} MovePassCharacterized(s: seq<Obstacle>, dx: real, f: seq<Fate>)
    requires Explains(s, dx, f)
    ensures MovePass(s, dx) == Survivors(s, f, dx)
    decreases |s|
  {
    if s != [] {
      assert FateAt(s, dx, f, 0);
      if OffScreen(Shift(s[0], dx)) {
        if |s| > 1 {
          assert FateAt(s, dx, f, 1);
          if |s| > 2 {
            ExplainsSplit(s, dx, f, 2);
            MovePassCharacterized(s[2..], dx, f[2..]);
          }
          assert s[1..][1..] == s[2..] && f[1..][1..] == f[2..];
          assert Survivors(s[1..], f[1..], dx) == [s[1]] + Survivors(s[2..], f[2..], dx);
        }
      } else {
        if |s| > 1 {
          ExplainsSplit(s, dx, f, 1);
        }
        MovePassCharacterized(s[1..], dx, f[1..]);
      }
    }
  }

  /** Survivors of a concatenation are the concatenation of survivors. */
  lemma {:induction false} SurvivorsAppend(s: seq<Obstacle>, t: seq<Obstacle>, f: seq<Fate>, g: seq<Fate>, dx: real)
    requires |f| == |s| && |g| == |t|
    ensures Survivors(s + t, f + g, dx) == Survivors(s, f, dx) + Survivors(t, g, dx)
    decreases |s|
  {
    if s == [] {
      assert s + t == t && f + g == g;
    } else {
      assert (s + t)[1..] == s[1..] + t && (f + g)[1..] == f[1..] + g;
      SurvivorsAppend(s[1..], t, f[1..], g, dx);
    }
  }

  /** The obstacle appended last (the one spawned this frame) ends the pass
      moved by `dx` when the loop reaches it and it stays on screen, removed
      when moving puts it off screen, and unmoved when the obstacle before it
      was removed; the rest of the collection is passed over as without it.
      `f` is the one explanation of the pass (ExplainsUnique). */
  lemma MovePassAppend(s: seq<Obstacle>, o: Obstacle, dx: real, f: seq<Fate>)
    requires Explains(s + [o], dx, f)
    ensures MovePass(s + [o], dx) == MovePass(s, dx) +
      (if f[|s|] == Skipped then [o]
       else if OffScreen(Shift(o, dx)) then []
       else [Shift(o, dx)])
  {
    var t := s + [o];
    var fs, fo := f[..|s|], f[|s|];
    ExplainsPrefix(t, dx, f, |s|);
    assert t[..|s|] == s && f == fs + [fo];
    MovePassCharacterized(t, dx, f);
    MovePassCharacterized(s, dx, fs);
    SurvivorsAppend(s, [o], fs, [fo], dx);
    assert FateAt(t, dx, f, |s|);
    assert [o][1..] == [] && [fo][1..] == [];
    assert Survivors([o], [fo], dx) ==
      (if fo == Skipped then [o] else if OffScreen(Shift(o, dx)) then [] else [Shift(o, dx)]);
  }

  /** When no obstacle leaves the screen, the pass moves every obstacle by
      exactly `dx` and keeps them all, in order. */
  lemma {:induction false} MovePassWithoutRemoval(s: seq<Obstacle>, dx: real)
    requires forall j :: 0 <= j < |s| ==> !OffScreen(Shift(s[j], dx))
    ensures |MovePass(s, dx)| == |s|
    ensures forall j :: 0 <= j < |s| ==> MovePass(s, dx)[j] == Shift(s[j], dx)
    decreases |s|
  {
    if s != [] {
      assert !OffScreen(Shift(s[0], dx));
      MovePassWithoutRemoval(s[1..], dx);
      forall j | 0 < j < |s|
        ensures MovePass(s, dx)[j] == Shift(s[j], dx)
      {
        assert MovePass(s, dx)[j] == MovePass(s[1..], dx)[j - 1];
        assert s[1..][j - 1] == s[j];
      }
    }
  }

  /** An obstacle that may be on the field at the start of a frame: not past
      the removal line, with a scale a spawn can produce. */
  predicate InPlay(o: Obstacle) {
    MinX <= o.x && 1.0 <= o.scale < 2.0
  }

  predicate AllInPlay(s: seq<Obstacle>) {
    forall j :: 0 <= j < |s| ==> InPlay(s[j])
  }

  /** A pass over obstacles that are all in play leaves only obstacles in
      play: moved ones survive only on screen, and skipped ones keep the place
      they already had. Scales never change. */
  lemma {:induction false} MovePassKeepsInPlay(s: seq<Obstacle>, dx: real)
    requires AllInPlay(s)
    ensures AllInPlay(MovePass(s, dx))
    decreases |s|
  {
    if s != [] {
      if OffScreen(Shift(s[0], dx)) {
        if |s| > 1 {
          assert InPlay(s[1]);
          assert AllInPlay(s[2..]) by {
            forall j | 0 <= j < |s[2..]| ensures InPlay(s[2..][j]) {
              assert s[2..][j] == s[j + 2];
            }
          }
          MovePassKeepsInPlay(s[2..], dx);
        }
      } else {
        assert InPlay(s[0]);
        assert AllInPlay(s[1..]) by {
          forall j | 0 <= j < |s[1..]| ensures InPlay(s[1..][j]) {
            assert s[1..][j] == s[j + 1];
          }
        }
        MovePassKeepsInPlay(s[1..], dx);
      }
    }
  }

  /** The obstacle right after a removed one is not visited: it keeps its
      place and its x, whatever moving it would have done, and lands between
      what the pass leaves of the obstacles before it and after it. */
  lemma SkippedObstacleStays(s: seq<Obstacle>, dx: real, f: seq<Fate>, j: nat)
    requires Explains(s, dx, f)
    requires 0 < j < |s| && f[j - 1] == Removed
    ensures MovePass(s, dx) ==
      Survivors(s[..j], f[..j], dx) + [s[j]] + Survivors(s[j + 1..], f[j + 1..], dx)
  {
    assert FateAt(s, dx, f, j);
    MovePassCharacterized(s, dx, f);
    assert s == s[..j] + s[j..] && f == f[..j] + f[j..];
    SurvivorsAppend(s[..j], s[j..], f[..j], f[j..], dx);
    assert s[j..][1..] == s[j + 1..] && f[j..][1..] == f[j + 1..];
  }

  /** An instance: the first obstacle goes off screen and is removed, and the
      second stays at -19.95 although moving it would have put it off screen. */
  lemma SkippedObstacleExample()
    ensures MovePass([Obstacle(-19.9, 1.0), Obstacle(-19.95, 1.5)], 0.2) == [Obstacle(-19.95, 1.5)]
  {
  }
}
