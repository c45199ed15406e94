/** The pipe manager: the live list of pipes, the speed ramp, the window size
    and the running score, all updated in place. The rules it applies are the
    functions of module Pipes; each method here is proved to apply exactly them. */
module PipeManagement {
  import opened Geometry
  import opened Difficulty
  import opened Pipes
  import BirdPhysics

  /** The window size the constructor assumes before `SetWindowSize` is called. */
  const InitialWindowWidth: int := 800
  const InitialWindowHeight: int := 600

  class PipeManager {
    var pipes: seq<Pipe>
    var basePipeSpeed: real
    var currentPipeSpeed: real
    var pipeSpacing: int
    var windowWidth: int
    var windowHeight: int
    var score: int
    var speedIncreaseTimer: real
    const settings: Settings

    /** The speed starts at the tier's speed and only grows, the ramp timer
        stays inside one period, the list is never empty, and every pipe carries
        the tier's gap in its field while its opening is the default 160. */
    predicate Valid()
      reads this
    {
      && WellFormed(settings)
      && basePipeSpeed == settings.pipeSpeed && pipeSpacing == settings.pipeSpacing
      && basePipeSpeed <= currentPipeSpeed
      && 0.0 <= speedIncreaseTimer < settings.secondsPerSpeedup
      && score >= 0
      && pipes != []
      && GapsAsBuilt(pipes, settings.pipeGap)
    }

    /** `new PipeManager(settings)`: an 800x600 window, the tier's speed and
        spacing, and four pipes laid out for that window. */
    constructor (s: Settings, rolls: seq<int>)
      requires WellFormed(s) && ValidRolls(rolls, InitialWindowHeight)
      ensures Valid()
      ensures settings == s && windowWidth == InitialWindowWidth && windowHeight == InitialWindowHeight
      ensures currentPipeSpeed == s.pipeSpeed && speedIncreaseTimer == 0.0 && score == 0
      ensures pipes == InitialPipes(InitialWindowWidth, InitialWindowHeight, s.pipeSpacing, s.pipeGap, rolls)
    {
      pipes := [];
      windowWidth := InitialWindowWidth;
      windowHeight := InitialWindowHeight;
      settings := s;
      basePipeSpeed := s.pipeSpeed;
      currentPipeSpeed := basePipeSpeed;
      pipeSpacing := s.pipeSpacing;
      score := 0;
      speedIncreaseTimer := 0.0;
      new;
      InitializePipes(rolls);
    }

    /** Replaces the list by four fresh pipes one spacing apart, starting at the
        window's right edge. */
    method InitializePipes(rolls: seq<int>)
      requires ValidRolls(rolls, windowHeight)
      modifies this
      ensures basePipeSpeed == old(basePipeSpeed) && currentPipeSpeed == old(currentPipeSpeed)
      ensures pipeSpacing == old(pipeSpacing) && windowWidth == old(windowWidth) && windowHeight == old(windowHeight)
      ensures score == old(score) && speedIncreaseTimer == old(speedIncreaseTimer)
      ensures pipes == InitialPipes(windowWidth, windowHeight, pipeSpacing, settings.pipeGap, rolls)
    {
      ghost var layout := InitialPipes(windowWidth, windowHeight, pipeSpacing, settings.pipeGap, rolls);
      pipes := [];
      var i := 0;
      while i < 4
        invariant 0 <= i <= 4
        invariant pipes == layout[..i]
        invariant basePipeSpeed == old(basePipeSpeed) && currentPipeSpeed == old(currentPipeSpeed)
        invariant pipeSpacing == old(pipeSpacing) && windowWidth == old(windowWidth) && windowHeight == old(windowHeight)
        invariant score == old(score) && speedIncreaseTimer == old(speedIncreaseTimer)
      {
        var p := NewPipe((windowWidth + i * pipeSpacing) as real, windowHeight, rolls[i], settings.pipeGap);
        pipes := pipes + [p];
        i := i + 1;
      }
    }

    /** One tick: the ramp, the uniform move at the current speed, removal of
        off-screen pipes and at most one spawn at the window's right edge + 50. */
    method Update(roll: int)
      requires Valid() && ValidRoll(roll, windowHeight)
      modifies this
      ensures Valid()
      ensures (speedIncreaseTimer, currentPipeSpeed)
           == Ramp(old(speedIncreaseTimer), old(currentPipeSpeed), settings.secondsPerSpeedup, settings.speedupDelta)
      ensures basePipeSpeed == old(basePipeSpeed) && pipeSpacing == old(pipeSpacing)
      ensures windowWidth == old(windowWidth) && windowHeight == old(windowHeight) && score == old(score)
      ensures pipes == Recycled(MoveAll(old(pipes), currentPipeSpeed), windowWidth, windowHeight, pipeSpacing, settings.pipeGap, roll)
    {
      speedIncreaseTimer := speedIncreaseTimer + TickSeconds;
      if speedIncreaseTimer >= settings.secondsPerSpeedup {
        currentPipeSpeed := currentPipeSpeed + settings.speedupDelta;
        speedIncreaseTimer := 0.0;
      }

      ghost var before := pipes;
      MovePipes();
      RecycledKeepsGaps(before, currentPipeSpeed, windowWidth, windowHeight, pipeSpacing, settings.pipeGap, roll);

      pipes := Survivors(pipes, windowWidth);

      if |pipes| == 0 || pipes[|pipes| - 1].x < (windowWidth - pipeSpacing) as real {
        var p := NewPipe((windowWidth + SpawnOffset) as real, windowHeight, roll, settings.pipeGap);
        pipes := pipes + [p];
      }
    }

    /** The `foreach` of `Update`: every pipe takes the current speed and moves
        left by it. */
    method MovePipes()
      modifies this
      ensures pipes == MoveAll(old(pipes), currentPipeSpeed)
      ensures basePipeSpeed == old(basePipeSpeed) && currentPipeSpeed == old(currentPipeSpeed)
      ensures pipeSpacing == old(pipeSpacing) && windowWidth == old(windowWidth) && windowHeight == old(windowHeight)
      ensures score == old(score) && speedIncreaseTimer == old(speedIncreaseTimer)
    {
      ghost var before := pipes;
      var i := 0;
      while i < |pipes|
        invariant 0 <= i <= |pipes| == |before|
        invariant forall j :: 0 <= j < i ==> pipes[j] == Moved(before[j], currentPipeSpeed)
        invariant forall j :: i <= j < |pipes| ==> pipes[j] == before[j]
        invariant basePipeSpeed == old(basePipeSpeed) && currentPipeSpeed == old(currentPipeSpeed)
        invariant pipeSpacing == old(pipeSpacing) && windowWidth == old(windowWidth) && windowHeight == old(windowHeight)
        invariant score == old(score) && speedIncreaseTimer == old(speedIncreaseTimer)
      {
        pipes := pipes[i := pipes[i].(speed := currentPipeSpeed)];
        pipes := pipes[i := pipes[i].(x := pipes[i].x - pipes[i].speed)];
        i := i + 1;
      }
      assert pipes == MoveAll(before, currentPipeSpeed);
    }

    /** True iff the bird's hitbox overlaps the top or bottom part of some pipe. */
    method CheckCollision(bird: BirdPhysics.Bird) returns (hit: bool)
      ensures hit <==> Collides(BirdPhysics.GetBounds(bird.State()), pipes)
    {
      var birdBounds := Rect(bird.x + 5.0, bird.y + 5.0, BirdPhysics.Size - 10.0, BirdPhysics.Size - 10.0);
      var i := 0;
      while i < |pipes|
        invariant 0 <= i <= |pipes|
        invariant forall j :: 0 <= j < i ==> !PipeHit(birdBounds, pipes[j])
      {
        var topBounds := TopBounds(pipes[i]);
        var bottomBounds := BottomBounds(pipes[i]);
        if IntersectsWith(birdBounds, topBounds) || IntersectsWith(birdBounds, bottomBounds) {
          return true;
        }
        i := i + 1;
      }
      return false;
    }

    /** Marks every passed, unscored pipe as scored and adds their number to the
        running score, which is returned. */
    method GetScore() returns (total: int)
      requires Valid()
      modifies this
      ensures Valid()
      ensures pipes == MarkAll(old(pipes))
      ensures score == old(score) + NewlyPassed(old(pipes)) && total == score
      ensures basePipeSpeed == old(basePipeSpeed) && currentPipeSpeed == old(currentPipeSpeed)
      ensures pipeSpacing == old(pipeSpacing) && windowWidth == old(windowWidth) && windowHeight == old(windowHeight)
      ensures speedIncreaseTimer == old(speedIncreaseTimer)
    {
      ghost var before := pipes;
      var newScore := 0;
      var i := 0;
      while i < |pipes|
        invariant 0 <= i <= |pipes| == |before|
        invariant forall j :: 0 <= j < i ==> pipes[j] == MarkPassed(before[j])
        invariant forall j :: i <= j < |pipes| ==> pipes[j] == before[j]
        invariant newScore == NewlyPassed(before[..i])
        invariant basePipeSpeed == old(basePipeSpeed) && currentPipeSpeed == old(currentPipeSpeed)
        invariant pipeSpacing == old(pipeSpacing) && windowWidth == old(windowWidth) && windowHeight == old(windowHeight)
        invariant score == old(score) && speedIncreaseTimer == old(speedIncreaseTimer)
      {
        assert before[..i + 1] == before[..i] + [before[i]];
        NewlyPassedAppend(before[..i], [before[i]]);
        if pipes[i].x + PipeWidth < ScoreLine && !pipes[i].scored {
          pipes := pipes[i := pipes[i].(scored := true)];
          newScore := newScore + 1;
        }
        i := i + 1;
      }
      assert before[..i] == before;
      assert pipes == MarkAll(before);
      score := score + newScore;
      total := score;
      forall p | p in pipes
        ensures p.gap == settings.pipeGap && p.bottomY == p.topHeight + DefaultGap as real
      {
        var j :| 0 <= j < |pipes| && pipes[j] == p;
        assert before[j] in before;
      }
    }

    method SetWindowSize(width: int, height: int)
      modifies this
      ensures windowWidth == width && windowHeight == height
      ensures pipes == old(pipes) && basePipeSpeed == old(basePipeSpeed) && currentPipeSpeed == old(currentPipeSpeed)
      ensures pipeSpacing == old(pipeSpacing) && score == old(score) && speedIncreaseTimer == old(speedIncreaseTimer)
    {
      windowWidth := width;
      windowHeight := height;
    }

    /** Back to the start of a run: score 0, base speed, timer 0 and four fresh
        pipes laid out for the current window. */
    method Reset(rolls: seq<int>)
      requires Valid() && ValidRolls(rolls, windowHeight)
      modifies this
      ensures Valid()
      ensures basePipeSpeed == old(basePipeSpeed) && pipeSpacing == old(pipeSpacing)
      ensures windowWidth == old(windowWidth) && windowHeight == old(windowHeight)
      ensures score == 0 && currentPipeSpeed == basePipeSpeed && speedIncreaseTimer == 0.0
      ensures pipes == InitialPipes(windowWidth, windowHeight, pipeSpacing, settings.pipeGap, rolls)
    {
      score := 0;
      currentPipeSpeed := basePipeSpeed;
      speedIncreaseTimer := 0.0;
      InitializePipes(rolls);
    }
  }
}
