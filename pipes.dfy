/** Pipes and the pure rules of the pipe pipeline: spawning, the speed ramp,
    moving, recycling, scoring and the collision test. The class that holds the
    live list and applies these rules in place is in module PipeManagement. */
module Pipes {
  import opened Geometry

  const PipeWidth: real := 70.0
  /** The `Gap` field's default. The constructor computes TopHeight and BottomY
      with it, before the difficulty's gap is assigned to the field. */
  const DefaultGap: int := 160
  const DefaultPipeSpeed: real := 3.0
  /** A pipe whose right edge is left of this x is removed. */
  const OffScreenEdge: real := -50.0
  /** A pipe whose right edge is left of this x has been passed by the bird. */
  const ScoreLine: real := 120.0
  /** New pipes appear this far right of the window's right edge. */
  const SpawnOffset: int := 50
  /** Seconds credited to the speed-ramp timer per tick (60 ticks a second). */
  const TickSeconds: real := 0.016
  const PipeInset: real := 5.0
  const BottomPipeLength: real := 1000.0

  datatype Pipe = Pipe(x: real, topHeight: real, bottomY: real, gap: int, scored: bool, speed: real)

  /** The exclusive upper bound handed to `Random.Next(120, …)` for the top height. */
  function TopHeightLimit(windowHeight: int): (m: int)
    ensures m >= 121
    ensures m >= windowHeight - DefaultGap - 120
    ensures m == 121 || m == windowHeight - DefaultGap - 120
  {
    if 121 >= windowHeight - DefaultGap - 120 then 121 else windowHeight - DefaultGap - 120
  }

  /** A value `Random.Next(120, TopHeightLimit(h))` can return. */
  predicate ValidRoll(r: int, windowHeight: int)
  {
    120 <= r < TopHeightLimit(windowHeight)
  }

  /** The four draws used to populate a fresh pipeline. */
  predicate ValidRolls(rolls: seq<int>, windowHeight: int)
  {
    |rolls| == 4 && forall i :: 0 <= i < |rolls| ==> ValidRoll(rolls[i], windowHeight)
  }

  /** `new Pipe(x, windowHeight, random)` followed by `p.Gap = gap`. */
  function NewPipe(x: real, windowHeight: int, roll: int, gap: int): (p: Pipe)
    requires ValidRoll(roll, windowHeight)
    ensures p.x == x && !p.scored && p.gap == gap
    ensures 120.0 <= p.topHeight <= (TopHeightLimit(windowHeight) - 1) as real
    ensures p.topHeight + DefaultGap as real + 120.0 <= windowHeight as real || p.topHeight == 120.0
    ensures p.bottomY == p.topHeight + DefaultGap as real
  {
    Pipe(x, roll as real, roll as real + DefaultGap as real, gap, false, DefaultPipeSpeed)
  }

  function TopBounds(p: Pipe): Rect
  {
    Rect(p.x + PipeInset, 0.0, PipeWidth - 2.0 * PipeInset, p.topHeight)
  }

  function BottomBounds(p: Pipe): Rect
  {
    Rect(p.x + PipeInset, p.bottomY, PipeWidth - 2.0 * PipeInset, BottomPipeLength)
  }

  /** The window width is accepted and ignored: only the fixed edge matters. */
  predicate IsOffScreen(p: Pipe, windowWidth: int)
  {
    p.x + PipeWidth < OffScreenEdge
  }

  /** The trailing edge of the pipe is left of the scoring line. */
  predicate Passed(p: Pipe)
  {
    p.x + PipeWidth < ScoreLine
  }

  predicate PipeHit(bounds: Rect, p: Pipe)
  {
    IntersectsWith(bounds, TopBounds(p)) || IntersectsWith(bounds, BottomBounds(p))
  }

  /** `CheckCollision`'s answer: the box hits the top or bottom part of some pipe. */
  predicate Collides(bounds: Rect, pipes: seq<Pipe>)
  {
    exists i :: 0 <= i < |pipes| && PipeHit(bounds, pipes[i])
  }

  // ---------------------------------------------------------------------
  // Collision geometry

  /** The two collision rectangles are both inset 5 from the pipe's sides and
      leave open exactly the band between TopHeight and BottomY. */
  lemma BoundsFrameTheGap(p: Pipe)
    ensures TopBounds(p).x == p.x + PipeInset && TopBounds(p).x + TopBounds(p).w == p.x + PipeWidth - PipeInset
    ensures TopBounds(p).y == 0.0
    ensures TopBounds(p).x == BottomBounds(p).x && TopBounds(p).w == BottomBounds(p).w
    ensures TopBounds(p).y + TopBounds(p).h == p.topHeight && BottomBounds(p).y == p.bottomY
  {
  }

  /** For a box that reaches below the window's top and does not lie beyond the
      bottom part's far end, hitting a pipe means overlapping its inset columns
      horizontally and leaving the open band above or below. */
  lemma GapPassage(b: Rect, p: Pipe)
    requires 0.0 < b.y + b.h && b.y < p.bottomY + BottomPipeLength
    ensures PipeHit(b, p) <==>
      (b.x < p.x + PipeWidth - PipeInset && p.x + PipeInset < b.x + b.w)
      && (b.y < p.topHeight || p.bottomY < b.y + b.h)
  {
  }

  /** A box that sits inside every pipe's open band collides with nothing. */
  lemma InsideEveryGapIsSafe(b: Rect, pipes: seq<Pipe>)
    requires forall i :: 0 <= i < |pipes| ==> pipes[i].topHeight <= b.y && b.y + b.h <= pipes[i].bottomY
    ensures !Collides(b, pipes)
  {
  }

  // ---------------------------------------------------------------------
  // Moving, recycling and spawning

  /** One pipe after its `Speed` is set to the current speed and `Update` runs. */
  function Moved(p: Pipe, speed: real): Pipe
  {
    p.(speed := speed, x := p.x - speed)
  }

  /** The `foreach` loop of `PipeManager.Update` over the whole list. */
  function MoveAll(pipes: seq<Pipe>, speed: real): seq<Pipe>
  {
    seq(|pipes|, i requires 0 <= i < |pipes| => Moved(pipes[i], speed))
  }

  /** `RemoveAll(IsOffScreen)`: keep, in order, the pipes still on screen. */
  function Survivors(pipes: seq<Pipe>, windowWidth: int): seq<Pipe>
  {
    if pipes == [] then []
    else (if IsOffScreen(pipes[0], windowWidth) then [] else [pipes[0]]) + Survivors(pipes[1..], windowWidth)
  }

  /** A new pipe is due when the list is empty or its last pipe has moved more
      than one spacing left of the window's right edge. */
  predicate NeedsSpawn(pipes: seq<Pipe>, windowWidth: int, spacing: int)
  {
    |pipes| == 0 || pipes[|pipes| - 1].x < (windowWidth - spacing) as real
  }

  /** Removal of off-screen pipes followed by at most one spawn. */
  function Recycled(pipes: seq<Pipe>, windowWidth: int, windowHeight: int, spacing: int, gap: int, roll: int): seq<Pipe>
    requires ValidRoll(roll, windowHeight)
  {
    var kept := Survivors(pipes, windowWidth);
    if NeedsSpawn(kept, windowWidth, spacing)
    then kept + [NewPipe((windowWidth + SpawnOffset) as real, windowHeight, roll, gap)]
    else kept
  }

  /** Every pipe moves left by the same amount and keeps everything but x and speed. */
  lemma MoveAllUniform(pipes: seq<Pipe>, speed: real)
    ensures |MoveAll(pipes, speed)| == |pipes|
    ensures forall i :: 0 <= i < |pipes| ==>
      MoveAll(pipes, speed)[i].x == pipes[i].x - speed && MoveAll(pipes, speed)[i].speed == speed
      && MoveAll(pipes, speed)[i].(x := pipes[i].x, speed := pipes[i].speed) == pipes[i]
  {
  }

  /** A pipe survives iff it was in the list and is not off screen. */
  lemma {:induction false} SurvivorsMembership(pipes: seq<Pipe>, windowWidth: int)
    ensures |Survivors(pipes, windowWidth)| <= |pipes|
    ensures forall p :: p in Survivors(pipes, windowWidth) <==> p in pipes && !IsOffScreen(p, windowWidth)
  {
    if pipes != [] {
      SurvivorsMembership(pipes[1..], windowWidth);
      assert pipes == [pipes[0]] + pipes[1..];
    }
  }

  /** Removal keeps the survivors' relative order: it distributes over concatenation. */
  lemma {:induction false} SurvivorsAppend(a: seq<Pipe>, b: seq<Pipe>, windowWidth: int)
    ensures Survivors(a + b, windowWidth) == Survivors(a, windowWidth) + Survivors(b, windowWidth)
  {
    if a == [] {
      assert a + b == b;
    } else {
      assert (a + b)[1..] == a[1..] + b;
      SurvivorsAppend(a[1..], b, windowWidth);
    }
  }

  /** Nothing is removed when no pipe is off screen. */
  lemma {:induction false} SurvivorsKeepAllOnScreen(pipes: seq<Pipe>, windowWidth: int)
    requires forall i :: 0 <= i < |pipes| ==> !IsOffScreen(pipes[i], windowWidth)
    ensures Survivors(pipes, windowWidth) == pipes
  {
    if pipes != [] {
      SurvivorsKeepAllOnScreen(pipes[1..], windowWidth);
    }
  }

  /** The recycling step of `PipeManager.Update`: the survivors come first in
      their old order, a pipe is appended exactly when a spawn is due, it is
      unscored and sits at windowWidth + 50, and the list is never empty. */
  lemma RecycleRule(pipes: seq<Pipe>, windowWidth: int, windowHeight: int, spacing: int, gap: int, roll: int)
    requires ValidRoll(roll, windowHeight)
    ensures var kept := Survivors(pipes, windowWidth);
      var r := Recycled(pipes, windowWidth, windowHeight, spacing, gap, roll);
      && r != []
      && r[..|kept|] == kept
      && (|r| == |kept| + 1 <==> NeedsSpawn(kept, windowWidth, spacing))
      && (|r| == |kept| || |r| == |kept| + 1)
      && (|r| == |kept| + 1 ==>
            r[|kept|].x == (windowWidth + SpawnOffset) as real && !r[|kept|].scored
            && r[|kept|].bottomY == r[|kept|].topHeight + DefaultGap as real)
  {
  }

  /** Every pipe carries the configured gap in its field while its opening is
      the default 160. */
  predicate GapsAsBuilt(pipes: seq<Pipe>, gap: int)
  {
    forall p :: p in pipes ==> p.gap == gap && p.bottomY == p.topHeight + DefaultGap as real
  }

  /** Moving and recycling keep every pipe's gap field and opening as built, and
      the list that comes out is never empty. */
  lemma RecycledKeepsGaps(pipes: seq<Pipe>, speed: real, windowWidth: int, windowHeight: int, spacing: int, gap: int, roll: int)
    requires ValidRoll(roll, windowHeight) && GapsAsBuilt(pipes, gap)
    ensures var r := Recycled(MoveAll(pipes, speed), windowWidth, windowHeight, spacing, gap, roll);
      r != [] && GapsAsBuilt(r, gap)
  {
    var moved := MoveAll(pipes, speed);
    var r := Recycled(moved, windowWidth, windowHeight, spacing, gap, roll);
    SurvivorsMembership(moved, windowWidth);
    forall p | p in r
      ensures p.gap == gap && p.bottomY == p.topHeight + DefaultGap as real
    {
      if p in moved {
        var j :| 0 <= j < |moved| && moved[j] == p;
        assert pipes[j] in pipes;
      }
    }
  }

  /** Every pipe left after an update is an old pipe moved by the current speed
      (so its `Scored` flag is the old one) or the single freshly spawned pipe. */
  lemma UpdateKeepsIdentities(pipes: seq<Pipe>, speed: real, windowWidth: int, windowHeight: int, spacing: int, gap: int, roll: int)
    requires ValidRoll(roll, windowHeight)
    ensures var kept := Survivors(MoveAll(pipes, speed), windowWidth);
      forall k :: 0 <= k < |kept| ==>
        !IsOffScreen(kept[k], windowWidth)
        && exists i :: 0 <= i < |pipes| && kept[k] == Moved(pipes[i], speed)
  {
    var moved := MoveAll(pipes, speed);
    var kept := Survivors(moved, windowWidth);
    SurvivorsMembership(moved, windowWidth);
    forall k | 0 <= k < |kept|
      ensures !IsOffScreen(kept[k], windowWidth)
      ensures exists i :: 0 <= i < |pipes| && kept[k] == Moved(pipes[i], speed)
    {
      assert kept[k] in kept;
      var i :| 0 <= i < |moved| && moved[i] == kept[k];
      assert kept[k] == Moved(pipes[i], speed);
    }
  }

  // ---------------------------------------------------------------------
  // Initial population

  /** `InitializePipes`: four pipes one spacing apart from the window's right edge. */
  function InitialPipes(windowWidth: int, windowHeight: int, spacing: int, gap: int, rolls: seq<int>): (r: seq<Pipe>)
    requires ValidRolls(rolls, windowHeight)
    ensures |r| == 4
  {
    seq(4, i requires 0 <= i < 4 => NewPipe((windowWidth + i * spacing) as real, windowHeight, rolls[i], gap))
  }

  /** Layout of a fresh pipeline: x = width + i * spacing, the top height in the
      draw's range and the opening always 160 tall, whatever gap was configured. */
  lemma InitialLayout(windowWidth: int, windowHeight: int, spacing: int, gap: int, rolls: seq<int>)
    requires ValidRolls(rolls, windowHeight)
    ensures var r := InitialPipes(windowWidth, windowHeight, spacing, gap, rolls);
      forall i :: 0 <= i < 4 ==>
        && r[i].x == (windowWidth + i * spacing) as real
        && 120.0 <= r[i].topHeight <= (TopHeightLimit(windowHeight) - 1) as real
        && r[i].bottomY == r[i].topHeight + 160.0
        && r[i].gap == gap && !r[i].scored
    ensures var r := InitialPipes(windowWidth, windowHeight, spacing, gap, rolls);
      forall i :: 0 <= i < 3 ==> r[i + 1].x - r[i].x == spacing as real
  {
  }

  // ---------------------------------------------------------------------
  // Speed ramp

  /** The ramp timer gains one tick; reaching the period adds the speed-up and
      restarts the timer. Returns (timer, speed). */
  function Ramp(timer: real, speed: real, secondsPerSpeedup: real, delta: real): (real, real)
  {
    var t := timer + TickSeconds;
    if t >= secondsPerSpeedup then (0.0, speed + delta) else (t, speed)
  }

  /** The speed never goes down, changes exactly on the ticks where the timer
      reaches the period, and then grows by exactly the delta with the timer
      back at 0. */
  lemma RampRatchets(timer: real, speed: real, secondsPerSpeedup: real, delta: real)
    requires delta > 0.0
    ensures var (t, s) := Ramp(timer, speed, secondsPerSpeedup, delta);
      && s >= speed
      && (s != speed <==> timer + TickSeconds >= secondsPerSpeedup)
      && (s != speed ==> s == speed + delta && t == 0.0)
      && (s == speed ==> t == timer + TickSeconds)
  {
  }

  /** `n` consecutive ramp steps. */
  ghost function RampAfter(n: nat, state: (real, real), secondsPerSpeedup: real, delta: real): (real, real)
  {
    if n == 0 then state else RampAfter(n - 1, Ramp(state.0, state.1, secondsPerSpeedup, delta), secondsPerSpeedup, delta)
  }

  /** When the period is `m` ticks long, a timer that has run `j` ticks reaches
      `j + n` ticks after `n` more, or speeds up once and restarts at the m-th. */
  lemma {:induction false} RampWithinPeriod(m: nat, j: nat, n: nat, speed: real, delta: real)
    requires 1 <= m && j + n <= m && j < m
    decreases n
    ensures RampAfter(n, (j as real * TickSeconds, speed), m as real * TickSeconds, delta)
         == if j + n < m then ((j + n) as real * TickSeconds, speed) else (0.0, speed + delta)
  {
    if n > 0 {
      var sps := m as real * TickSeconds;
      assert (j as real * TickSeconds) + TickSeconds == (j + 1) as real * TickSeconds;
      if j + 1 < m {
        assert Ramp(j as real * TickSeconds, speed, sps, delta) == ((j + 1) as real * TickSeconds, speed);
        RampWithinPeriod(m, j + 1, n - 1, speed, delta);
      } else {
        assert Ramp(j as real * TickSeconds, speed, sps, delta) == (0.0, speed + delta);
      }
    }
  }

  lemma {:induction false} RampAfterCompose(a: nat, b: nat, state: (real, real), secondsPerSpeedup: real, delta: real)
    ensures RampAfter(a + b, state, secondsPerSpeedup, delta)
         == RampAfter(b, RampAfter(a, state, secondsPerSpeedup, delta), secondsPerSpeedup, delta)
  {
    if a > 0 {
      RampAfterCompose(a - 1, b, Ramp(state.0, state.1, secondsPerSpeedup, delta), secondsPerSpeedup, delta);
    }
  }

  /** Easy (start 2.2, +0.15 every 12 s): 12 s is 750 ticks of 0.016 s; the speed
      is 2.35 after 12 s and 2.5 after 24 s, and unchanged one tick before each. */
  lemma EasyRampScenario()
    ensures RampAfter(749, (0.0, 2.2), 12.0, 0.15).1 == 2.2
    ensures RampAfter(750, (0.0, 2.2), 12.0, 0.15) == (0.0, 2.35)
    ensures RampAfter(1500, (0.0, 2.2), 12.0, 0.15) == (0.0, 2.5)
  {
    assert 750 as real * TickSeconds == 12.0;
    assert 0 as real * TickSeconds == 0.0;
    RampWithinPeriod(750, 0, 749, 2.2, 0.15);
    RampWithinPeriod(750, 0, 750, 2.2, 0.15);
    RampWithinPeriod(750, 0, 750, 2.35, 0.15);
    RampAfterCompose(750, 750, (0.0, 2.2), 12.0, 0.15);
  }

  // ---------------------------------------------------------------------
  // Scoring

  function MarkPassed(p: Pipe): Pipe
  {
    if Passed(p) && !p.scored then p.(scored := true) else p
  }

  /** The `Scored` flags after `GetScore`'s loop. */
  function MarkAll(pipes: seq<Pipe>): seq<Pipe>
  {
    seq(|pipes|, i requires 0 <= i < |pipes| => MarkPassed(pipes[i]))
  }

  /** The number of pipes `GetScore` adds to the score: passed and not yet scored. */
  function NewlyPassed(pipes: seq<Pipe>): (n: nat)
    ensures n <= |pipes|
  {
    if pipes == [] then 0
    else (if Passed(pipes[0]) && !pipes[0].scored then 1 else 0) + NewlyPassed(pipes[1..])
  }

  /** Counting newly passed pipes distributes over concatenation, so the count
      can be accumulated one pipe at a time from the front. */
  lemma {:induction false} NewlyPassedAppend(a: seq<Pipe>, b: seq<Pipe>)
    ensures NewlyPassed(a + b) == NewlyPassed(a) + NewlyPassed(b)
  {
    if a == [] {
      assert a + b == b;
    } else {
      assert (a + b)[1..] == a[1..] + b;
      NewlyPassedAppend(a[1..], b);
    }
  }

  /** The number of pipes whose `Scored` flag is set. */
  function ScoredCount(pipes: seq<Pipe>): nat
  {
    if pipes == [] then 0 else (if pipes[0].scored then 1 else 0) + ScoredCount(pipes[1..])
  }

  /** Scoring sets exactly the flags of passed, unscored pipes, never clears a
      flag and touches no other field. */
  lemma MarkAllFlags(pipes: seq<Pipe>)
    ensures |MarkAll(pipes)| == |pipes|
    ensures forall i :: 0 <= i < |pipes| ==>
      && MarkAll(pipes)[i].scored == (pipes[i].scored || Passed(pipes[i]))
      && (MarkAll(pipes)[i].scored != pipes[i].scored <==> Passed(pipes[i]) && !pipes[i].scored)
      && MarkAll(pipes)[i].(scored := pipes[i].scored) == pipes[i]
  {
  }

  /** The score grows by exactly the number of flags the pass sets. */
  lemma {:induction false} ScoreCountsNewFlags(pipes: seq<Pipe>)
    ensures ScoredCount(MarkAll(pipes)) == ScoredCount(pipes) + NewlyPassed(pipes)
  {
    if pipes != [] {
      assert MarkAll(pipes)[1..] == MarkAll(pipes[1..]);
      ScoreCountsNewFlags(pipes[1..]);
    }
  }

  /** A second scoring pass without an update in between changes nothing and adds nothing. */
  lemma {:induction false} ScoringIdempotent(pipes: seq<Pipe>)
    ensures NewlyPassed(MarkAll(pipes)) == 0
    ensures MarkAll(MarkAll(pipes)) == MarkAll(pipes)
  {
    if pipes != [] {
      assert MarkAll(pipes)[1..] == MarkAll(pipes[1..]);
      ScoringIdempotent(pipes[1..]);
    }
  }

  /** A 70-wide pipe at x = 115 (right edge 185) is not yet scored; once its right
      edge is left of 120 it scores exactly once, however often scoring runs. */
  lemma ScoreOncePerPipe(p: Pipe, later: real)
    requires p.x == 115.0 && !p.scored && later + PipeWidth < ScoreLine
    ensures NewlyPassed([p]) == 0 && MarkAll([p]) == [p]
    ensures NewlyPassed([p.(x := later)]) == 1
    ensures NewlyPassed(MarkAll([p.(x := later)])) == 0
  {
    ScoringIdempotent([p.(x := later)]);
  }
}
