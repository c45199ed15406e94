/** The difficulty table: each tier fixes the pipe gap, the spacing between
    spawned pipes, the starting pipe speed and the periodic speed-up. */
module Difficulty {

  datatype Tier = Easy | Normal | Hard

  datatype Settings = Settings(
    pipeGap: int,
    pipeSpacing: int,
    pipeSpeed: real,
    secondsPerSpeedup: real,
    speedupDelta: real)

  /** Every tuning value is positive, so the speed ramp only ever goes up. */
  predicate WellFormed(s: Settings)
  {
    s.pipeGap > 0 && s.pipeSpacing > 0 && s.pipeSpeed > 0.0
    && s.secondsPerSpeedup > 0.0 && s.speedupDelta > 0.0
  }

  /** `a` is at least as hard as `b` on every axis: a smaller gap, tighter
      spacing, a faster start, more frequent and larger speed-ups. */
  predicate AtLeastAsHard(a: Settings, b: Settings)
  {
    a.pipeGap <= b.pipeGap && a.pipeSpacing <= b.pipeSpacing && a.pipeSpeed >= b.pipeSpeed
    && a.secondsPerSpeedup <= b.secondsPerSpeedup && a.speedupDelta >= b.speedupDelta
  }

  function DefaultNormal(): (s: Settings)
    ensures WellFormed(s)
  {
    Settings(160, 280, 2.5, 10.0, 0.2)
  }

  /** The settings of a tier; Normal (the `default` arm of the switch) is DefaultNormal. */
  function For(d: Tier): (s: Settings)
    ensures WellFormed(s)
    ensures d == Normal ==> s == DefaultNormal()
    ensures d == Easy ==> AtLeastAsHard(DefaultNormal(), s)
    ensures d == Hard ==> AtLeastAsHard(s, DefaultNormal())
  {
    match d
    case Easy => Settings(190, 320, 2.2, 12.0, 0.15)
    case Hard => Settings(140, 260, 3.2, 8.0, 0.25)
    case Normal => DefaultNormal()
  }
}
