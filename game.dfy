/**
 The swan's input-driven state machine: the swan record and the run flags of
 the game, which change only on a reset, a key press and a key release.

 The value-level functions AfterReset, AfterKeyDown and AfterKeyUp say what
 each handler does to a snapshot of the state; the GameState class performs
 the same updates in place and is proved to agree with them.
 */
module Game {
  import opened Geometry

  /** The keys the handlers react to; every other key code is Other. */
  datatype Key = Space | ArrowUp | ArrowDown | KeyH | KeyM | Other

  /** Maps a browser key code to the keys the handlers distinguish. */
  function KeyOf(code: string): (k: Key)
    ensures k == Space <==> code == "Space"
    ensures k == ArrowUp <==> code == "ArrowUp"
    ensures k == ArrowDown <==> code == "ArrowDown"
    ensures k == KeyH <==> code == "KeyH"
    ensures k == KeyM <==> code == "KeyM"
    ensures k == Other <==>
      code !in ["Space", "ArrowUp", "ArrowDown", "KeyH", "KeyM"]
  {
    if code == "Space" then Space
    else if code == "ArrowUp" then ArrowUp
    else if code == "ArrowDown" then ArrowDown
    else if code == "KeyH" then KeyH
    else if code == "KeyM" then KeyM
    else Other
  }

  predicate IsJumpKey(k: Key) { k == Space || k == ArrowUp }

  /** A snapshot of the swan record. */
  datatype SwanState = SwanState(
    x: real, y: real, vy: real, width: real, height: real,
    jumping: bool, ducking: bool, frame: int, jumpCount: int)
  {
    function Sprite(): Box { Box(x, y, width, height) }
  }

  /** A snapshot of the swan and of every run flag the handlers touch. */
  datatype RunState = RunState(
    swan: SwanState,
    gameStarted: bool, gameOver: bool, showHitbox: bool, bgmOn: bool,
    score: real, speed: real, obstacles: seq<Box>,
    frameCount: int, obstacleFrequency: int, invertBackground: bool)

  /** The number of jumps allowed before the swan would have to land. */
  const MaxJumps := 2
  /** The vertical velocity a jump sets (negative is upwards). */
  const JumpVelocity := -9.0
  /** The swan's vertical position on the ground. */
  const GroundY := 120.0

  /**
   The state when the program starts, before any key is pressed: no run has
   started, the hitbox display is off and the music is on.
   */
  function Initial(): (r: RunState)
    ensures Reachable(r) && !r.gameStarted && !r.showHitbox && r.bgmOn
  {
    RunState(
      SwanState(50.0, GroundY, 0.0, 64.0, 64.0, false, false, 0, 0),
      false, false, false, true,
      0.0, 5.0, [], 0, 90, false)
  }

  /**
   The design invariant of the swan: it never jumps and ducks at once and it
   has used at most two jumps.
   */
  predicate Valid(s: RunState)
  {
    !(s.swan.jumping && s.swan.ducking) && 0 <= s.swan.jumpCount <= MaxJumps
  }

  /**
   A stronger invariant of every state the handlers can reach from Initial().
   Because no frame update exists, the swan stays on the ground line, its
   velocity is that of the last jump or zero, and the run is never over.
   */
  predicate Reachable(s: RunState)
  {
    Valid(s) &&
    !s.gameOver &&
    s.swan.y == GroundY &&
    (s.swan.jumping <==> s.swan.jumpCount > 0) &&
    s.swan.vy == (if s.swan.jumping then JumpVelocity else 0.0) &&
    (s.swan.ducking ==> s.gameStarted)
  }

  /** The swan and the run flags have the start-of-run values, whatever the other fields hold. */
  predicate IsFreshRun(s: RunState)
  {
    s.swan.y == GroundY && s.swan.vy == 0.0 &&
    !s.swan.jumping && !s.swan.ducking && s.swan.jumpCount == 0 &&
    s.obstacles == [] && s.score == 0.0 && s.speed == 5.0 &&
    s.frameCount == 0 && s.obstacleFrequency == 90 &&
    s.gameStarted && !s.gameOver && !s.invertBackground
  }

  /** What a reset does: a fresh run, keeping the swan's size, x, frame and the two toggles. */
  function AfterReset(s: RunState): (r: RunState)
    ensures IsFreshRun(r) && Reachable(r)
    ensures r.swan.x == s.swan.x && r.swan.width == s.swan.width
    ensures r.swan.height == s.swan.height && r.swan.frame == s.swan.frame
    ensures r.showHitbox == s.showHitbox && r.bgmOn == s.bgmOn
  {
    s.(swan := s.swan.(y := GroundY, vy := 0.0, jumping := false, ducking := false, jumpCount := 0),
       obstacles := [], score := 0.0, speed := 5.0, frameCount := 0, obstacleFrequency := 90,
       gameStarted := true, gameOver := false, invertBackground := false)
  }

  /** What a key press does: a jump, a duck, or nothing. Only the swan changes. */
  function AfterKeyDown(s: RunState, k: Key): (r: RunState)
    ensures r.(swan := s.swan) == s
    ensures Valid(s) ==> Valid(r)
    ensures Reachable(s) ==> Reachable(r)
  {
    if IsJumpKey(k) && s.swan.jumpCount < MaxJumps && !s.swan.ducking then
      s.(swan := s.swan.(vy := JumpVelocity, jumping := true, jumpCount := s.swan.jumpCount + 1))
    else if k == ArrowDown && !s.swan.jumping && s.gameStarted then
      s.(swan := s.swan.(ducking := true))
    else
      s
  }

  /** What a key release does: start a run, stop ducking, or flip a toggle. */
  function AfterKeyUp(s: RunState, k: Key): (r: RunState)
    ensures Valid(s) ==> Valid(r)
    ensures Reachable(s) ==> Reachable(r)
    ensures s.gameStarted ==> r.gameStarted
  {
    if IsJumpKey(k) && !s.gameStarted then
      AfterReset(s)
    else if k == ArrowDown then
      s.(swan := s.swan.(ducking := false))
    else if k == KeyH then
      s.(showHitbox := !s.showHitbox)
    else if k == KeyM then
      s.(bgmOn := !s.bgmOn)
    else
      s
  }

  /** resetGame is idempotent. */
  lemma ResetIdempotent(s: RunState)
    ensures AfterReset(AfterReset(s)) == AfterReset(s)
  {
  }

  /**
   A jump-key press jumps exactly when fewer than two jumps are used and the
   swan is not ducking, whether or not the game has started; otherwise it
   changes nothing.
   */
  lemma JumpGuard(s: RunState, k: Key)
    requires IsJumpKey(k)
    ensures var r := AfterKeyDown(s, k);
      if s.swan.jumpCount < MaxJumps && !s.swan.ducking then
        r.swan == s.swan.(vy := JumpVelocity, jumping := true, jumpCount := s.swan.jumpCount + 1)
      else
        r == s
  {
  }

  /**
   An ArrowDown press makes the swan duck exactly when it is not jumping and
   the game has started; otherwise it changes nothing.
   */
  lemma DuckGuard(s: RunState)
    ensures AfterKeyDown(s, ArrowDown).swan.ducking <==>
      s.swan.ducking || (!s.swan.jumping && s.gameStarted)
    ensures AfterKeyDown(s, ArrowDown) == s || AfterKeyDown(s, ArrowDown) == s.(swan := s.swan.(ducking := true))
  {
  }

  /** A key-down of any other key changes nothing. */
  lemma OtherKeyDownIsNoOp(s: RunState, k: Key)
    requires k in {KeyH, KeyM, Other}
    ensures AfterKeyDown(s, k) == s
  {
  }

  /** A key-up of any key the handler does not test changes nothing. */
  lemma OtherKeyUpIsNoOp(s: RunState)
    ensures AfterKeyUp(s, Other) == s
  {
  }

  /** A jump-key release starts a run exactly when none has started; otherwise it changes nothing. */
  lemma StartGuard(s: RunState, k: Key)
    requires IsJumpKey(k)
    ensures AfterKeyUp(s, k) == if s.gameStarted then s else AfterReset(s)
  {
  }

  /** An ArrowDown release always stops ducking and touches nothing else. */
  lemma DuckRelease(s: RunState)
    ensures AfterKeyUp(s, ArrowDown) == s.(swan := s.swan.(ducking := false))
  {
  }

  /** KeyH flips the hitbox display and KeyM the music flag; each one undoes itself. */
  lemma TogglesAreInvolutions(s: RunState)
    ensures AfterKeyUp(s, KeyH) == s.(showHitbox := !s.showHitbox)
    ensures AfterKeyUp(s, KeyM) == s.(bgmOn := !s.bgmOn)
    ensures AfterKeyUp(AfterKeyUp(s, KeyH), KeyH) == s
    ensures AfterKeyUp(AfterKeyUp(s, KeyM), KeyM) == s
  {
  }

  /** A key event as delivered by the browser: a press or a release. */
  datatype Event = Down(key: Key) | Up(key: Key)

  function Step(s: RunState, e: Event): RunState
  {
    match e
    case Down(k) => AfterKeyDown(s, k)
    case Up(k) => AfterKeyUp(s, k)
  }

  /** The state after handling the events in order. */
  function Replay(s: RunState, es: seq<Event>): RunState
    decreases |es|
  {
    if es == [] then s else Replay(Step(s, es[0]), es[1..])
  }

  /** Replaying two event sequences one after the other is replaying their concatenation. */
  lemma {:induction false} ReplayAppend(s: RunState, es: seq<Event>, fs: seq<Event>)
    ensures Replay(s, es + fs) == Replay(Replay(s, es), fs)
    decreases |es|
  {
    if es == [] {
      assert es + fs == fs;
    } else {
      assert (es + fs)[0] == es[0] && (es + fs)[1..] == es[1..] + fs;
      ReplayAppend(Step(s, es[0]), es[1..], fs);
    }
  }

  /** Every sequence of key events keeps the reachable-state invariant. */
  lemma {:induction false} ReplayKeepsReachable(s: RunState, es: seq<Event>)
    requires Reachable(s)
    ensures Reachable(Replay(s, es))
    decreases |es|
  {
    if es != [] {
      ReplayKeepsReachable(Step(s, es[0]), es[1..]);
    }
  }

  /** From the start of the program, no key sequence ends the game or lifts the swan off the ground. */
  lemma {:induction false} NeverOverNeverAirborne(es: seq<Event>)
    ensures !Replay(Initial(), es).gameOver
    ensures Replay(Initial(), es).swan.y == GroundY
    ensures Valid(Replay(Initial(), es))
  {
    ReplayKeepsReachable(Initial(), es);
  }

  /** Once a run has started, no key sequence stops it. */
  lemma {:induction false} StartedStaysStarted(s: RunState, es: seq<Event>)
    requires s.gameStarted
    ensures Replay(s, es).gameStarted
    decreases |es|
  {
    if es != [] {
      StartedStaysStarted(Step(s, es[0]), es[1..]);
    }
  }

  /**
   Only a reset clears a jump: any other key event leaves jumpCount no smaller
   and keeps a jump that is under way.
   */
  lemma JumpClearedOnlyByReset(s: RunState, e: Event)
    ensures Step(s, e) == AfterReset(s) ||
      (Step(s, e).swan.jumpCount >= s.swan.jumpCount && (s.swan.jumping ==> Step(s, e).swan.jumping))
  {
  }

  /**
   Once a run has started no key sequence clears a jump: a reset happens only
   before the start, and there is no landing.
   */
  lemma {:induction false} JumpsKeptOnceStarted(s: RunState, es: seq<Event>)
    requires s.gameStarted
    ensures Replay(s, es).swan.jumpCount >= s.swan.jumpCount
    ensures s.swan.jumping ==> Replay(s, es).swan.jumping
    decreases |es|
  {
    if es != [] {
      JumpsKeptOnceStarted(Step(s, es[0]), es[1..]);
    }
  }

  /**
   From program start, once some prefix of the key events has started a run,
   every continuation keeps the run started and never undoes a jump made so far.
   */
  lemma ContinuationKeepsRunAndJumps(es: seq<Event>, fs: seq<Event>)
    requires Replay(Initial(), es).gameStarted
    ensures Replay(Initial(), es + fs).gameStarted
    ensures Replay(Initial(), es + fs).swan.jumpCount >= Replay(Initial(), es).swan.jumpCount
  {
    ReplayAppend(Initial(), es, fs);
    StartedStaysStarted(Replay(Initial(), es), fs);
    JumpsKeptOnceStarted(Replay(Initial(), es), fs);
  }

  /** The swan's x, size and animation frame agree. */
  predicate SameShape(a: SwanState, b: SwanState)
  {
    a.x == b.x && a.width == b.width && a.height == b.height && a.frame == b.frame
  }

  /** A single key event keeps the swan's x, size and animation frame. */
  lemma StepKeepsSwanShape(s: RunState, e: Event)
    ensures SameShape(Step(s, e).swan, s.swan)
  {
  }

  /** No key sequence changes the swan's x, size or animation frame. */
  lemma {:induction false} ReplayKeepsSwanShape(s: RunState, es: seq<Event>)
    ensures SameShape(Replay(s, es).swan, s.swan)
    decreases |es|
  {
    if es != [] {
      StepKeepsSwanShape(s, es[0]);
      ReplayKeepsSwanShape(Step(s, es[0]), es[1..]);
    }
  }

  /**
   Pressing and releasing Space before a run has started begins a fresh run:
   the jump the press performs is undone by the reset the release performs.
   */
  lemma StartPress()
    ensures Replay(Initial(), [Down(Space), Up(Space)]) == AfterReset(Initial())
  {
  }

  /** In a run, two presses give a double jump and a third press before a reset is ignored. */
  lemma DoubleJump(s: RunState)
    requires IsFreshRun(s)
    ensures AfterKeyDown(AfterKeyDown(s, Space), ArrowUp).swan.jumpCount == 2
    ensures AfterKeyDown(AfterKeyDown(s, Space), ArrowUp).swan.jumping
    ensures AfterKeyDown(AfterKeyDown(AfterKeyDown(s, Space), ArrowUp), Space)
         == AfterKeyDown(AfterKeyDown(s, Space), ArrowUp)
  {
  }

  /** While jumping the swan cannot duck, and while ducking it cannot jump. */
  lemma JumpAndDuckExclusive(s: RunState, k: Key)
    ensures s.swan.jumping ==> AfterKeyDown(s, ArrowDown) == s
    ensures s.swan.ducking && IsJumpKey(k) ==> AfterKeyDown(s, k) == s
  {
  }

  /** The swan record, updated in place by the handlers. */
  class Swan {
    var x: real
    var y: real
    var vy: real
    var width: real
    var height: real
    var jumping: bool
    var ducking: bool
    var frame: int
    var jumpCount: int

    function Value(): SwanState
      reads this
    {
      SwanState(x, y, vy, width, height, jumping, ducking, frame, jumpCount)
    }

    constructor ()
      ensures Value() == Initial().swan
    {
      x, y, vy, width, height := 50.0, GroundY, 0.0, 64.0, 64.0;
      jumping, ducking, frame, jumpCount := false, false, 0, 0;
    }
  }

  /** The module-level state of the game: the swan and the run flags. */
  class GameState {
    const swan: Swan
    var gameStarted: bool
    var gameOver: bool
    var showHitbox: bool
    var bgmOn: bool
    var score: real
    var speed: real
    var obstacles: seq<Box>
    var frameCount: int
    var obstacleFrequency: int
    var invertBackground: bool

    function State(): RunState
      reads this, swan
    {
      RunState(swan.Value(), gameStarted, gameOver, showHitbox, bgmOn,
               score, speed, obstacles, frameCount, obstacleFrequency, invertBackground)
    }

    constructor ()
      ensures fresh(swan)
      ensures State() == Initial()
    {
      swan := new Swan();
      gameStarted, gameOver, showHitbox, bgmOn := false, false, false, true;
      score, speed, obstacles := 0.0, 5.0, [];
      frameCount, obstacleFrequency, invertBackground := 0, 90, false;
    }

    /** resetGame: start a fresh run. */
    method Reset()
      modifies this, swan
      ensures State() == AfterReset(old(State()))
    {
      swan.y := GroundY; swan.vy := 0.0; swan.jumping := false; swan.ducking := false; swan.jumpCount := 0;
      obstacles := []; score := 0.0; speed := 5.0; frameCount := 0; obstacleFrequency := 90;
      gameStarted := true; gameOver := false; invertBackground := false;
    }

    /** The keydown handler: jump on Space or ArrowUp, duck on ArrowDown. */
    method KeyDown(code: Key)
      modifies swan
      ensures State() == AfterKeyDown(old(State()), code)
      ensures old(Valid(State())) ==> Valid(State())
    {
      if IsJumpKey(code) && swan.jumpCount < MaxJumps && !swan.ducking {
        swan.vy := JumpVelocity;
        swan.jumping := true;
        swan.jumpCount := swan.jumpCount + 1;
      } else if code == ArrowDown && !swan.jumping && gameStarted {
        swan.ducking := true;
      }
    }

    /** The keyup handler: start a run, stop ducking, toggle the hitbox display or the music. */
    method KeyUp(code: Key)
      modifies this, swan
      ensures State() == AfterKeyUp(old(State()), code)
      ensures old(Valid(State())) ==> Valid(State())
    {
      if IsJumpKey(code) && !gameStarted {
        Reset();
      } else if code == ArrowDown {
        swan.ducking := false;
      } else if code == KeyH {
        showHitbox := !showHitbox;
      } else if code == KeyM {
        bgmOn := !bgmOn;
      }
    }

  }
}
