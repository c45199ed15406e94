/** The game session: the screen state machine driven by key presses, button
    clicks and timer ticks, the timer's running flag, the score, the best score,
    the top-5 list and the crash effects. */
module Session {
  import opened Difficulty
  import opened BirdPhysics
  import opened Pipes
  import opened PipeManagement
  import opened ScoreBoard
  import opened Effects

  datatype GameState = MainMenu | DifficultySelection | CostumeSelection | Playing | GameOver | Paused

  /** The keys the game reacts to; `Digit(n)` is the top-row number key n. */
  datatype Key = Enter | Escape | Space | R | M | Digit(n: nat) | OtherKey

  /** The button a click landed on, or none. */
  datatype Button = MainStart | MainExit | PauseResume | PauseRestart | PauseMenu
                  | GameOverRestart | GameOverMenu | NoButton

  /** What an input asks the session to do. */
  datatype Command =
    | Ignore
    | Show(next: GameState)
    | PickTier(tier: Tier)
    | PickCostume(costume: Costume)
    | Restart
    | Jump
    | Pause
    | Resume
    | Exit

  /** Where the bird appears at the start of every run. */
  const StartX: real := 150.0
  const StartY: real := 300.0
  /** Height of the ground strip at the bottom of the window. */
  const GroundHeight: int := 80

  /** The difficulty screen's number keys: 1 Easy, 2 Normal, 3 Hard. */
  function TierKey(n: nat): (r: Option<Tier>)
    ensures r.Some? <==> 1 <= n <= 3
  {
    if n == 1 then Some(Easy) else if n == 2 then Some(Normal) else if n == 3 then Some(Hard) else None
  }

  /** The costume screen's number keys 1 to 7, in the order of the costume list. */
  function CostumeKey(n: nat): (r: Option<Costume>)
    ensures r.Some? <==> 1 <= n <= 7
    ensures n == 1 ==> r == Some(Classic)
  {
    if n == 1 then Some(Classic) else if n == 2 then Some(Red) else if n == 3 then Some(Blue)
    else if n == 4 then Some(Rainbow) else if n == 5 then Some(Golden) else if n == 6 then Some(Green)
    else if n == 7 then Some(Purple) else None
  }

  /** The key handler's table: what a key does on each screen. */
  function KeyCommand(s: GameState, k: Key): Command
  {
    match s
    case MainMenu => if k == Enter then Show(DifficultySelection) else Ignore
    case DifficultySelection =>
      if k.Digit? && TierKey(k.n).Some? then PickTier(TierKey(k.n).value)
      else if k == Escape then Show(MainMenu) else Ignore
    case CostumeSelection =>
      if k.Digit? && CostumeKey(k.n).Some? then PickCostume(CostumeKey(k.n).value)
      else if k == Escape then Show(MainMenu) else Ignore
    case Playing => if k == Space then Jump else if k == Escape then Pause else Ignore
    case GameOver =>
      if k == Space || k == Enter then Restart else if k == Escape then Show(MainMenu) else Ignore
    case Paused =>
      if k == Escape then Resume else if k == R then Restart else if k == M then Show(MainMenu) else Ignore
  }

  /** The click handler's table: only the current screen's buttons respond. */
  function ClickCommand(s: GameState, b: Button): Command
  {
    match s
    case MainMenu => if b == MainStart then Show(DifficultySelection) else if b == MainExit then Exit else Ignore
    case Paused =>
      if b == PauseResume then Resume else if b == PauseRestart then Restart
      else if b == PauseMenu then Show(MainMenu) else Ignore
    case GameOver =>
      if b == GameOverRestart then Restart else if b == GameOverMenu then Show(MainMenu) else Ignore
    case _ => Ignore
  }

  /** A command that starts a new run (`StartGame` or `RestartGame`). */
  predicate StartsRun(c: Command)
  {
    c.PickCostume? || c == Restart
  }

  /** The screen after a command. */
  function StateAfter(s: GameState, c: Command): GameState
  {
    match c
    case Show(next) => next
    case PickTier(_) => CostumeSelection
    case PickCostume(_) => Playing
    case Restart => Playing
    case Resume => Playing
    case Pause => Paused
    case _ => s
  }

  /** Whether the timer runs after a command: starting, restarting and resuming
      start it, pausing stops it, everything else leaves it as it was. */
  function TimerAfter(running: bool, c: Command): bool
  {
    if StartsRun(c) || c == Resume then true else if c == Pause then false else running
  }

  /** The commands a screen can issue: screen changes and difficulty choices
      come from the menus (never from play) and lead to a menu, a costume choice
      comes from the costume screen, restarting from the pause and game-over
      screens, flapping and pausing from play, resuming from the pause screen. */
  predicate Issuable(s: GameState, c: Command)
  {
    match c
    case Show(next) => s != Playing && (next == MainMenu || next == DifficultySelection)
    case PickTier(_) => s != Playing
    case PickCostume(_) => s == CostumeSelection
    case Restart => s == GameOver || s == Paused
    case Jump => s == Playing
    case Pause => s == Playing
    case Resume => s == Paused
    case _ => true
  }

  /** The screen after a sequence of key presses. */
  function AfterKeys(s: GameState, keys: seq<Key>): GameState
    decreases |keys|
  {
    if keys == [] then s else AfterKeys(StateAfter(s, KeyCommand(s, keys[0])), keys[1..])
  }

  /** A tick ends the run when the bird's hitbox touches a pipe, or the bird is
      above the window's top or below the top of the ground. */
  predicate Crashed(b: BirdState, pipes: seq<Pipe>, clientHeight: int)
  {
    Collides(GetBounds(b), pipes) || b.y < 0.0 || b.y > (clientHeight - GroundHeight) as real
  }

  /** The particles of a crash: one per draw pair, at the centre of the bird's sprite. */
  function CrashBurst(b: BirdState, draws: seq<(real, real)>): seq<Particle>
  {
    Burst(b.x + Size / 2.0, b.y + Size / 2.0, draws)
  }

  // ---------------------------------------------------------------------
  // The state machine

  /** Every key keeps "the timer runs exactly while playing". */
  lemma KeyKeepsTimerInvariant(s: GameState, running: bool, k: Key)
    requires running == (s == Playing)
    ensures TimerAfter(running, KeyCommand(s, k)) == (StateAfter(s, KeyCommand(s, k)) == Playing)
  {
  }

  /** Every click keeps "the timer runs exactly while playing". */
  lemma ClickKeepsTimerInvariant(s: GameState, running: bool, b: Button)
    requires running == (s == Playing)
    ensures TimerAfter(running, ClickCommand(s, b)) == (StateAfter(s, ClickCommand(s, b)) == Playing)
  {
  }

  /** Every command the key and click tables produce can be issued on its screen. */
  lemma TablesIssueOnlyIssuable(s: GameState, k: Key, b: Button)
    ensures Issuable(s, KeyCommand(s, k)) && Issuable(s, ClickCommand(s, b))
  {
  }

  /** Play is entered only by choosing a costume, restarting from the game-over
      or pause screen, or resuming from pause. */
  lemma WaysIntoPlay(s: GameState, k: Key, b: Button)
    requires s != Playing
    ensures StateAfter(s, KeyCommand(s, k)) == Playing ==>
      (s == CostumeSelection && KeyCommand(s, k).PickCostume?)
      || (s == GameOver && (k == Space || k == Enter))
      || (s == Paused && (k == Escape || k == R))
    ensures StateAfter(s, ClickCommand(s, b)) == Playing ==>
      (s == GameOver && b == GameOverRestart) || (s == Paused && (b == PauseResume || b == PauseRestart))
  {
  }

  /** Escape backs out of every screen: it pauses and resumes play, and returns
      to the main menu from the selection screens and the game-over screen. */
  lemma EscapeBacksOut(s: GameState)
    ensures KeyCommand(s, Escape) == match s
      case MainMenu => Ignore
      case Playing => Pause
      case Paused => Resume
      case _ => Show(MainMenu)
  {
  }

  /** Only Space while playing flaps. */
  lemma OnlySpaceFlaps(s: GameState, k: Key)
    ensures KeyCommand(s, k) == Jump <==> s == Playing && k == Space
  {
  }

  /** Enter, a difficulty digit and a costume digit lead from the main menu into play. */
  lemma MenuToPlay(tier: nat, costume: nat)
    requires 1 <= tier <= 3 && 1 <= costume <= 7
    ensures AfterKeys(MainMenu, [Enter, Digit(tier), Digit(costume)]) == Playing
  {
    var keys := [Enter, Digit(tier), Digit(costume)];
    assert keys[1..] == [Digit(tier), Digit(costume)];
    assert keys[1..][1..] == [Digit(costume)];
    assert AfterKeys(CostumeSelection, [Digit(costume)]) == AfterKeys(Playing, []);
  }

  /** Escape twice during play pauses and resumes. */
  lemma EscapeTwiceResumes()
    ensures AfterKeys(Playing, [Escape, Escape]) == Playing
  {
    var keys := [Escape, Escape];
    assert keys[1..] == [Escape];
    assert AfterKeys(Playing, keys) == AfterKeys(Paused, [Escape]);
    assert AfterKeys(Paused, [Escape]) == AfterKeys(Playing, []);
  }

  // ---------------------------------------------------------------------
  // The form

  class FlappyBirdGame {
    var gameState: GameState
    var timerRunning: bool
    var bird: Bird
    var pipeManager: PipeManager
    var score: int
    var highScore: int
    var selectedCostume: Costume
    var selectedDifficulty: Tier
    var isJumpHeld: bool
    var topScores: seq<int>
    var screenShakeFrames: int
    var particles: seq<Particle>
    var clientWidth: int
    var clientHeight: int

    /** The timer runs exactly while playing. */
    predicate TimerMatchesState()
      reads this`timerRunning, this`gameState
    {
      timerRunning == (gameState == Playing)
    }

    /** The displayed score is the pipe manager's, and the pipe manager is
        consistent and knows the window size. */
    predicate PipelineLinked()
      reads this`score, this`pipeManager, this`clientWidth, this`clientHeight, pipeManager
    {
      && pipeManager.Valid()
      && score == pipeManager.score
      && pipeManager.windowWidth == clientWidth && pipeManager.windowHeight == clientHeight
    }

    /** The top list is descending and at most five long, the shake counter is
        in [0, 20] and every particle is alive. */
    predicate RecordsValid()
      reads this`topScores, this`screenShakeFrames, this`particles
    {
      && NonIncreasing(topScores) && |topScores| <= Capacity
      && 0 <= screenShakeFrames <= ShakeFrames
      && (forall p :: p in particles ==> p.life > 0.0)
    }

    /** A run in progress, paused or just ended uses the chosen difficulty and costume. */
    predicate RunMatchesChoices()
      reads this`gameState, this`pipeManager, this`bird, this`selectedDifficulty, this`selectedCostume, bird`costume
    {
      gameState == Playing || gameState == Paused || gameState == GameOver ==>
        pipeManager.settings == For(selectedDifficulty) && bird.costume == selectedCostume
    }

    predicate Valid()
      reads this, bird, pipeManager
    {
      TimerMatchesState() && PipelineLinked() && RecordsValid() && RunMatchesChoices()
    }

    /** The state right after `StartGame`: a fresh bird and pipeline for the
        chosen costume and difficulty, score 0, playing with the timer on. */
    predicate RunStarted(rolls: seq<int>)
      reads this, bird, pipeManager
    {
      && ValidRolls(rolls, InitialWindowHeight)
      && gameState == Playing && timerRunning && score == 0
      && bird.State() == Spawned(StartX, StartY, selectedCostume)
      && pipeManager.settings == For(selectedDifficulty)
      && pipeManager.score == 0 && pipeManager.speedIncreaseTimer == 0.0
      && pipeManager.currentPipeSpeed == pipeManager.settings.pipeSpeed
      && pipeManager.windowWidth == clientWidth && pipeManager.windowHeight == clientHeight
      && pipeManager.pipes == InitialPipes(InitialWindowWidth, InitialWindowHeight,
           pipeManager.settings.pipeSpacing, pipeManager.settings.pipeGap, rolls)
    }

    /** The form's constructor: the main menu with the timer stopped; then, as
        `InitializeGame`, a bird at the start position and a pipeline for the
        selected difficulty sized to the window; then the saved best score and
        top list. */
    constructor (width: int, height: int, rolls: seq<int>, savedHighScore: Option<int>,
                 savedScores: Option<seq<Option<int>>>)
      requires ValidRolls(rolls, InitialWindowHeight)
      ensures Valid()
      ensures gameState == MainMenu && !timerRunning && score == 0 && !isJumpHeld
      ensures selectedCostume == Classic && selectedDifficulty == Normal
      ensures bird.State() == Spawned(StartX, StartY, Classic) && pipeManager.settings == For(Normal)
      ensures clientWidth == width && clientHeight == height
      ensures pipeManager.pipes == InitialPipes(InitialWindowWidth, InitialWindowHeight,
                                                For(Normal).pipeSpacing, For(Normal).pipeGap, rolls)
      ensures pipeManager.currentPipeSpeed == For(Normal).pipeSpeed && pipeManager.speedIncreaseTimer == 0.0
      ensures highScore == (if savedHighScore.Some? then savedHighScore.value else 0)
      ensures topScores == (if savedScores.Some? then LoadedTopScores(savedScores.value) else [])
      ensures screenShakeFrames == 0 && particles == []
    {
      gameState := MainMenu;
      timerRunning := false;
      score := 0;
      highScore := 0;
      selectedCostume := Classic;
      selectedDifficulty := Normal;
      isJumpHeld := false;
      topScores := [];
      screenShakeFrames := 0;
      particles := [];
      clientWidth := width;
      clientHeight := height;
      bird := new Bird(StartX, StartY, Classic);
      pipeManager := new PipeManager(For(Normal), rolls);
      new;
      pipeManager.SetWindowSize(clientWidth, clientHeight);
      LoadHighScore(savedHighScore);
      LoadTopScores(savedScores);
    }

    /** `int.TryParse` of the saved best score: kept only when it parses. */
    method LoadHighScore(saved: Option<int>)
      modifies this`highScore
      ensures highScore == if saved.Some? then saved.value else old(highScore)
    {
      if saved.Some? {
        highScore := saved.value;
      }
    }

    /** The saved lines, if the file exists, are parsed, sorted descending and cut to five. */
    method LoadTopScores(saved: Option<seq<Option<int>>>)
      modifies this`topScores
      ensures topScores == if saved.Some? then LoadedTopScores(saved.value) else old(topScores)
      ensures saved.Some? ==> NonIncreasing(topScores) && |topScores| <= Capacity
    {
      if saved.Some? {
        var lines := ParsedScores(saved.value);
        topScores := TopFive(lines);
      }
    }

    /** Appends the run's score and keeps the five best. */
    method UpdateTopScores(newScore: int)
      modifies this`topScores
      ensures topScores == RecordRun(old(topScores), newScore)
      ensures NonIncreasing(topScores) && |topScores| <= Capacity
    {
      topScores := topScores + [newScore];
      topScores := TopFive(topScores);
    }

    method StartScreenShake()
      modifies this`screenShakeFrames
      ensures screenShakeFrames == ShakeFrames
    {
      screenShakeFrames := ShakeFrames;
    }

    /** Twenty particles at the centre of the bird's sprite, one per draw pair. */
    method SpawnParticles(b: Bird, draws: seq<(real, real)>)
      requires |draws| == BurstSize && ValidDraws(draws)
      modifies this`particles
      ensures particles == old(particles) + CrashBurst(b.State(), draws)
    {
      ghost var burst := CrashBurst(b.State(), draws);
      var i := 0;
      while i < BurstSize
        invariant 0 <= i <= BurstSize
        invariant particles == old(particles) + burst[..i]
      {
        var p := Particle(b.x + Size / 2.0, b.y + Size / 2.0, draws[i].0 * 6.0 - 3.0, draws[i].1 * -6.0, 1.0);
        particles := particles + [p];
        assert burst[..i + 1] == burst[..i] + [p];
        i := i + 1;
      }
      assert burst[..BurstSize] == burst;
    }

    /** Walks the list from the back: each particle drifts and is removed in
        place once its life is used up. */
    method UpdateParticles()
      modifies this`particles
      ensures particles == Decay(old(particles))
    {
      ghost var before := particles;
      var i := |particles| - 1;
      while i >= 0
        invariant -1 <= i < |before|
        invariant particles == before[..i + 1] + Decay(before[i + 1..])
      {
        ghost var rest := Decay(before[i + 1..]);
        DecayFromBack(before, i);
        var p := particles[i];
        p := p.(x := p.x + p.vx);
        p := p.(y := p.y + p.vy);
        p := p.(vy := p.vy + ParticleGravity);
        p := p.(life := p.life - LifeStep);
        particles := particles[i := p];
        assert particles == before[..i] + [p] + rest;
        if p.life <= 0.0 {
          particles := particles[..i] + particles[i + 1..];
          assert particles == before[..i] + rest;
        }
        i := i - 1;
      }
      assert before[0..] == before;
    }

    /** A fresh bird and pipeline for the chosen costume and difficulty, score 0,
        playing with the timer on. */
    method StartGame(rolls: seq<int>)
      requires Valid() && ValidRolls(rolls, InitialWindowHeight)
      modifies this`bird, this`pipeManager, this`score, this`gameState, this`timerRunning
      ensures Valid() && fresh(bird) && fresh(pipeManager)
      ensures RunStarted(rolls)
    {
      bird := new Bird(StartX, StartY, selectedCostume);
      pipeManager := new PipeManager(For(selectedDifficulty), rolls);
      pipeManager.SetWindowSize(clientWidth, clientHeight);
      score := 0;
      gameState := Playing;
      timerRunning := true;
    }

    method RestartGame(rolls: seq<int>)
      requires Valid() && ValidRolls(rolls, InitialWindowHeight)
      modifies this`bird, this`pipeManager, this`score, this`gameState, this`timerRunning
      ensures Valid() && Applied(Restart) && RunStarted(rolls)
    {
      StartGame(rolls);
    }

    /** The effect of a command on the session: the screen and the timer follow
        the tables, a start replaces bird and pipeline, and nothing else changes. */
    twostate predicate Applied(c: Command)
      reads this
    {
      && gameState == StateAfter(old(gameState), c)
      && timerRunning == TimerAfter(old(timerRunning), c)
      && selectedDifficulty == (if c.PickTier? then c.tier else old(selectedDifficulty))
      && selectedCostume == (if c.PickCostume? then c.costume else old(selectedCostume))
      && (if StartsRun(c) then fresh(bird) && fresh(pipeManager)
          else bird == old(bird) && pipeManager == old(pipeManager) && score == old(score))
      && isJumpHeld == (c == Jump || old(isJumpHeld))
      && highScore == old(highScore) && topScores == old(topScores)
      && screenShakeFrames == old(screenShakeFrames) && particles == old(particles)
      && clientWidth == old(clientWidth) && clientHeight == old(clientHeight)
    }

    /** Carries out a command issued by the key or click handler. */
    method Perform(c: Command, rolls: seq<int>)
      requires Valid() && Issuable(gameState, c) && ValidRolls(rolls, InitialWindowHeight)
      modifies this`gameState, this`timerRunning, this`selectedDifficulty, this`selectedCostume
      modifies this`isJumpHeld, this`bird, this`pipeManager, this`score, bird
      ensures Valid() && Applied(c)
      ensures StartsRun(c) ==> RunStarted(rolls)
      ensures c == Jump ==> bird.State() == Flap(old(bird.State()))
      ensures c != Jump && !StartsRun(c) ==> bird.State() == old(bird.State())
    {
      match c {
        case Ignore =>
        case Exit =>
        case Show(next) =>
          ShowScreen(next);
        case PickTier(tier) =>
          ChooseTier(tier);
        case PickCostume(costume) =>
          ChooseCostume(costume, rolls);
        case Restart =>
          RestartGame(rolls);
        case Jump =>
          JumpNow();
        case Pause =>
          PauseGame();
        case Resume =>
          ResumeGame();
      }
    }

    /** A menu switches to another menu. */
    method ShowScreen(next: GameState)
      requires Valid() && gameState != Playing && (next == MainMenu || next == DifficultySelection)
      modifies this`gameState
      ensures Valid() && Applied(Show(next))
    {
      gameState := next;
    }

    /** A difficulty was chosen: the costume screen comes next. */
    method ChooseTier(tier: Tier)
      requires Valid() && gameState != Playing
      modifies this`selectedDifficulty, this`gameState
      ensures Valid() && Applied(PickTier(tier))
    {
      selectedDifficulty := tier;
      gameState := CostumeSelection;
    }

    /** A costume was chosen: the run starts with it. */
    method ChooseCostume(costume: Costume, rolls: seq<int>)
      requires Valid() && gameState == CostumeSelection && ValidRolls(rolls, InitialWindowHeight)
      modifies this`selectedCostume, this`bird, this`pipeManager, this`score, this`gameState, this`timerRunning
      ensures Valid() && Applied(PickCostume(costume)) && RunStarted(rolls)
    {
      selectedCostume := costume;
      StartGame(rolls);
    }

    /** Space during play: the bird jumps and the jump is held. */
    method JumpNow()
      requires Valid() && gameState == Playing
      modifies this`isJumpHeld, bird
      ensures Valid() && Applied(Jump)
      ensures bird.State() == Flap(old(bird.State()))
    {
      bird.Jump();
      isJumpHeld := true;
    }

    /** Escape during play: the pause screen, with the timer stopped. */
    method PauseGame()
      requires Valid() && gameState == Playing
      modifies this`gameState, this`timerRunning
      ensures Valid() && Applied(Pause)
    {
      gameState := Paused;
      timerRunning := false;
    }

    /** Resuming from the pause screen: play again, with the timer started. */
    method ResumeGame()
      requires Valid() && gameState == Paused
      modifies this`gameState, this`timerRunning
      ensures Valid() && Applied(Resume)
    {
      gameState := Playing;
      timerRunning := true;
    }

    /** `FlappyBirdGame_KeyDown`: the key table picks the command for the
        current screen, which is then carried out. */
    method KeyDown(key: Key, rolls: seq<int>)
      requires Valid() && ValidRolls(rolls, InitialWindowHeight)
      modifies this`gameState, this`timerRunning, this`selectedDifficulty, this`selectedCostume
      modifies this`isJumpHeld, this`bird, this`pipeManager, this`score, bird
      ensures Valid()
      ensures Applied(KeyCommand(old(gameState), key))
      ensures StartsRun(KeyCommand(old(gameState), key)) ==> RunStarted(rolls)
      ensures KeyCommand(old(gameState), key) == Jump ==> bird.State() == Flap(old(bird.State()))
      ensures KeyCommand(old(gameState), key) != Jump && !StartsRun(KeyCommand(old(gameState), key)) ==>
        bird.State() == old(bird.State())
    {
      var c := KeyCommand(gameState, key);
      TablesIssueOnlyIssuable(gameState, key, NoButton);
      Perform(c, rolls);
    }

    /** `OnKeyUp`: releasing Space ends the held jump, on any screen. */
    method KeyUp(key: Key)
      requires Valid()
      modifies this`isJumpHeld
      ensures Valid()
      ensures isJumpHeld == (if key == Space then false else old(isJumpHeld))
    {
      if key == Space {
        isJumpHeld := false;
      }
    }

    /** `FlappyBirdGame_MouseDown`, with the click already resolved to the
        button it landed on: the click table picks the command. */
    method MouseDown(button: Button, rolls: seq<int>)
      requires Valid() && ValidRolls(rolls, InitialWindowHeight)
      modifies this`gameState, this`timerRunning, this`selectedDifficulty, this`selectedCostume
      modifies this`isJumpHeld, this`bird, this`pipeManager, this`score, bird
      ensures Valid()
      ensures Applied(ClickCommand(old(gameState), button))
      ensures StartsRun(ClickCommand(old(gameState), button)) ==> RunStarted(rolls)
      ensures !StartsRun(ClickCommand(old(gameState), button)) ==> bird.State() == old(bird.State())
    {
      var c := ClickCommand(gameState, button);
      TablesIssueOnlyIssuable(gameState, OtherKey, button);
      Perform(c, rolls);
    }

    /** The window was resized: the pipe manager learns the new client size. */
    method Resize(width: int, height: int)
      requires Valid()
      modifies this`clientWidth, this`clientHeight, pipeManager
      ensures Valid()
      ensures clientWidth == width && clientHeight == height
      ensures pipeManager.windowWidth == width && pipeManager.windowHeight == height
      ensures pipeManager.pipes == old(pipeManager.pipes) && pipeManager.score == old(pipeManager.score)
      ensures pipeManager.currentPipeSpeed == old(pipeManager.currentPipeSpeed)
      ensures pipeManager.speedIncreaseTimer == old(pipeManager.speedIncreaseTimer)
    {
      clientWidth := width;
      clientHeight := height;
      pipeManager.SetWindowSize(width, height);
    }

    /** The crash branch of a tick: game over with the timer stopped, the shake
        and the burst started, and the score as it stood before this tick's
        scoring recorded as best score (on a strict improvement) and in the top list. */
    method EndRun(draws: seq<(real, real)>)
      requires |draws| == BurstSize && ValidDraws(draws)
      modifies this`gameState, this`timerRunning, this`screenShakeFrames, this`particles
      modifies this`highScore, this`topScores
      ensures gameState == GameOver && !timerRunning && screenShakeFrames == ShakeFrames
      ensures particles == old(particles) + CrashBurst(bird.State(), draws)
      ensures highScore == RaisedHighScore(old(highScore), score)
      ensures topScores == RecordRun(old(topScores), score)
      ensures NonIncreasing(topScores) && |topScores| <= Capacity
    {
      gameState := GameOver;
      timerRunning := false;
      StartScreenShake();
      SpawnParticles(bird, draws);
      if score > highScore {
        highScore := score;
      }
      UpdateTopScores(score);
    }

    /** The part of a tick that runs on every screen: the shake counter and the particles. */
    method UpdateEffects()
      modifies this`screenShakeFrames, this`particles
      ensures screenShakeFrames == Countdown(old(screenShakeFrames))
      ensures particles == Decay(old(particles))
      ensures forall p :: p in particles ==> p.life > 0.0
    {
      if screenShakeFrames > 0 {
        screenShakeFrames := screenShakeFrames - 1;
      }
      UpdateParticles();
      DecayMembership(old(particles));
    }

    /** `GameTimer_Tick`, which the timer raises only while it runs. */
    method Tick(roll: int, draws: seq<(real, real)>)
      requires Valid() && timerRunning
      requires ValidRoll(roll, clientHeight) && |draws| == BurstSize && ValidDraws(draws)
      modifies this`gameState, this`timerRunning, this`score, this`highScore, this`topScores
      modifies this`screenShakeFrames, this`particles, bird, pipeManager
      ensures Valid()
      ensures bird.State() == Fly(old(bird.State()), isJumpHeld)
      ensures (pipeManager.speedIncreaseTimer, pipeManager.currentPipeSpeed)
           == Ramp(old(pipeManager.speedIncreaseTimer), old(pipeManager.currentPipeSpeed),
                   pipeManager.settings.secondsPerSpeedup, pipeManager.settings.speedupDelta)
      ensures var updated := Recycled(MoveAll(old(pipeManager.pipes), pipeManager.currentPipeSpeed),
                                      clientWidth, clientHeight, pipeManager.pipeSpacing, pipeManager.settings.pipeGap, roll);
        && pipeManager.pipes == MarkAll(updated)
        && score == old(score) + NewlyPassed(updated)
        && (gameState == GameOver <==> Crashed(bird.State(), updated, clientHeight))
      ensures highScore >= old(highScore)
      ensures gameState == GameOver ==>
        && !timerRunning
        && highScore == RaisedHighScore(old(highScore), old(score))
        && topScores == RecordRun(old(topScores), old(score))
        && screenShakeFrames == ShakeFrames - 1
        && particles == Decay(old(particles) + CrashBurst(bird.State(), draws))
      ensures gameState != GameOver ==>
        && gameState == Playing && timerRunning
        && highScore == old(highScore) && topScores == old(topScores)
        && screenShakeFrames == Countdown(old(screenShakeFrames))
        && particles == Decay(old(particles))
    {
      if gameState == Playing {
        PlayStep(roll, draws);
      }
      UpdateEffects();
    }

    /** The `Playing` arm of a tick: the bird and the pipes move, a crash ends
        the run, and the pipes passed in this tick are scored. */
    method PlayStep(roll: int, draws: seq<(real, real)>)
      requires Valid() && gameState == Playing
      requires ValidRoll(roll, clientHeight) && |draws| == BurstSize && ValidDraws(draws)
      modifies this`gameState, this`timerRunning, this`score, this`highScore, this`topScores
      modifies this`screenShakeFrames, this`particles, bird, pipeManager
      ensures TimerMatchesState() && PipelineLinked() && RunMatchesChoices()
      ensures NonIncreasing(topScores) && |topScores| <= Capacity && 0 <= screenShakeFrames <= ShakeFrames
      ensures bird.State() == Fly(old(bird.State()), isJumpHeld)
      ensures (pipeManager.speedIncreaseTimer, pipeManager.currentPipeSpeed)
           == Ramp(old(pipeManager.speedIncreaseTimer), old(pipeManager.currentPipeSpeed),
                   pipeManager.settings.secondsPerSpeedup, pipeManager.settings.speedupDelta)
      ensures var updated := Recycled(MoveAll(old(pipeManager.pipes), pipeManager.currentPipeSpeed),
                                      clientWidth, clientHeight, pipeManager.pipeSpacing, pipeManager.settings.pipeGap, roll);
        && pipeManager.pipes == MarkAll(updated)
        && score == old(score) + NewlyPassed(updated)
        && (gameState == GameOver <==> Crashed(bird.State(), updated, clientHeight))
      ensures gameState == GameOver ==>
        && !timerRunning
        && highScore == RaisedHighScore(old(highScore), old(score))
        && topScores == RecordRun(old(topScores), old(score))
        && screenShakeFrames == ShakeFrames
        && particles == old(particles) + CrashBurst(bird.State(), draws)
      ensures gameState != GameOver ==>
        && gameState == Playing
        && highScore == old(highScore) && topScores == old(topScores)
        && screenShakeFrames == old(screenShakeFrames) && particles == old(particles)
    {
      var crash := Advance(roll);
      if crash {
        EndRun(draws);
      }
      score := pipeManager.GetScore();
    }

    /** The bird flies, the pipes move, and the tick ends the run iff the bird
        touches a pipe or leaves the space between the window top and the ground. */
    method Advance(roll: int) returns (crash: bool)
      requires Valid() && gameState == Playing && ValidRoll(roll, clientHeight)
      modifies bird, pipeManager
      ensures PipelineLinked() && RunMatchesChoices() && pipeManager.score == old(pipeManager.score)
      ensures bird.State() == Fly(old(bird.State()), isJumpHeld)
      ensures (pipeManager.speedIncreaseTimer, pipeManager.currentPipeSpeed)
           == Ramp(old(pipeManager.speedIncreaseTimer), old(pipeManager.currentPipeSpeed),
                   pipeManager.settings.secondsPerSpeedup, pipeManager.settings.speedupDelta)
      ensures pipeManager.pipes == Recycled(MoveAll(old(pipeManager.pipes), pipeManager.currentPipeSpeed),
                                            clientWidth, clientHeight, pipeManager.pipeSpacing, pipeManager.settings.pipeGap, roll)
      ensures crash <==> Crashed(bird.State(), pipeManager.pipes, clientHeight)
    {
      bird.Update(isJumpHeld);
      pipeManager.Update(roll);
      var hit := pipeManager.CheckCollision(bird);
      crash := hit || bird.y < 0.0 || bird.y > (clientHeight - GroundHeight) as real;
    }
  }
}
