/** The session: the view's initial state, the camera update, the frame
    (physics then camera), touch presses, and the invariants a run keeps. */
module Game {
  import opened Geometry
  import opened Rng
  import opened State
  import opened LevelGen
  import opened Physics

  /** `updateCamera`: move 9% of the way toward a target that keeps the
      player's centre 45% down the view, but never above the top of the level. */
  function UpdateCamera(s: GameState, height: int): (r: GameState)
    ensures r == s.(cameraY := r.cameraY)
    ensures r.cameraY >= 0.0
    ensures var target := s.player.CenterY() - height as real * 0.45;
      && r.cameraY <= Max(0.0, Max(s.cameraY, target))
      && (r.cameraY > 0.0 || Min(s.cameraY, target) >= 0.0 ==> Min(s.cameraY, target) <= r.cameraY)
  {
    var target := s.player.CenterY() - height as real * 0.45;
    var moved := s.cameraY + (target - s.cameraY) * 0.09;
    s.(cameraY := Max(0.0, moved))
  }

  /** What the host delivers between two states: a frame with the current
      intents and view size, or a press that may request a jump. */
  datatype Event =
    | Frame(left: bool, right: bool, width: int, height: int)
    | Press(touchY: real, height: int)

  /** `onDraw` runs physics then the camera; a press runs the jump guard. */
  function Step(s: GameState, e: Event, rng: Stream): (r: GameState)
    ensures r.attempts >= s.attempts && r.level >= s.level
  {
    match e
    case Frame(left, right, width, height) => UpdateCamera(UpdatePhysics(s, left, right, width, height, rng), height)
    case Press(touchY, height) => Jump(s, touchY, height)
  }

  /** A session's events applied in order. */
  function Run(s: GameState, es: seq<Event>, rng: Stream): GameState
    decreases |es|
  {
    if |es| == 0 then s else Run(Step(s, es[0], rng), es[1..], rng)
  }

  /** The state built by the view's constructor: field initialisers, then the
      first `generateLevel`, which runs before the view has been laid out and
      so sees a width of 0. */
  function Init(rng: Stream): (s: GameState)
    ensures s.level == 1 && s.attempts == 0 && s.levelSeed == InitialSeed && AtSpawn(s)
    ensures LevelShape(s.platforms, 1, 0)
    ensures 1 + 5 * ChainLength(1) <= s.drawn <= 1 + 6 * ChainLength(1)
  {
    GenerateLevel(GameState(SpawnRect, Vec2(0.0, 0.0), 1, 0, 0.0, 0.0, InitialSeed, [], 0), 0, rng)
  }

  /** Flags no reachable platform breaks: deadly is never fake, hidden is never
      deadly, the goal has no other flag, and only fake or hidden platforms are revealed. */
  predicate Consistent(p: Platform) {
    && (p.deadly ==> !p.fake)
    && (p.hiddenUntilTouch ==> !p.deadly)
    && (p.isGoal ==> !p.fake && !p.deadly && !p.hiddenUntilTouch)
    && (p.revealed ==> p.Resettable())
  }

  /** A platform list the session can hold: its only goal last, every platform consistent. */
  predicate PlatformsValid(ps: seq<Platform>) {
    GoalIsLast(ps) && forall i :: 0 <= i < |ps| ==> Consistent(ps[i])
  }

  /** The session invariant. */
  predicate Valid(s: GameState) {
    && s.player.Width() == 50.0 && s.player.Height() == 50.0
    && s.cameraY >= 0.0
    && PlatformsValid(s.platforms)
  }

  /** Every list the generator builds is one the session can hold. */
  lemma GeneratedListIsValid(ps: seq<Platform>, level: Level, width: int)
    requires LevelShape(ps, level, width)
    ensures PlatformsValid(ps)
  {
    forall i | 0 <= i < |ps|
      ensures Consistent(ps[i])
    {
      if 0 < i < |ps| - 1 {
        assert ChainMember(ps[i], level, width);
      }
    }
  }

  /** Revealing fake or hidden platforms keeps a list valid. */
  lemma KeptLayoutIsValid(ps: seq<Platform>, qs: seq<Platform>)
    requires PlatformsValid(ps) && KeepsLayout(ps, qs)
    ensures PlatformsValid(qs)
  {
    forall i | 0 <= i < |qs|
      ensures Consistent(qs[i]) && qs[i].isGoal == ps[i].isGoal
    {
      assert Consistent(ps[i]) && qs[i].SameLayout(ps[i]);
    }
  }

  /** A generated level satisfies the invariant. */
  lemma GeneratedIsValid(s: GameState, width: int, rng: Stream)
    ensures Valid(GenerateLevel(s, width, rng))
  {
    var r := GenerateLevel(s, width, rng);
    GeneratedListIsValid(r.platforms, s.level, width);
  }

  /** The first state has no attempts, is valid, holds the 26 platforms of level 1,
      and, since the view has no width yet, every chain platform starts at x = 40
      and the goal is centred on x = 0. */
  lemma InitialState(rng: Stream)
    ensures var s := Init(rng);
      && Valid(s) && s.level == 1 && s.attempts == 0 && s.levelSeed == InitialSeed
      && |s.platforms| == 26
      && (forall i :: 0 < i < |s.platforms| - 1 ==> s.platforms[i].rect.left == 40.0)
      && s.platforms[25].rect.left == -120.0
  {
    var s := Init(rng);
    GeneratedListIsValid(s.platforms, 1, 0);
    FirstLevelColumn(s.platforms);
  }

  /** At level 1 and width 0 the chain is a column at x = 40: no side traps,
      and the clamp range shrinks to the single value 40. */
  lemma FirstLevelColumn(ps: seq<Platform>)
    requires LevelShape(ps, 1, 0)
    ensures |ps| == 26
    ensures forall i :: 0 < i < |ps| - 1 ==> ps[i].rect.left == 40.0
    ensures ps[|ps| - 1].rect.left == -120.0
  {
    forall i | 0 < i < |ps| - 1
      ensures ps[i].rect.left == 40.0
    {
      assert ChainMember(ps[i], 1, 0);
    }
  }

  /** One event keeps the invariant. */
  lemma StepPreservesValid(s: GameState, e: Event, rng: Stream)
    requires Valid(s)
    ensures Valid(Step(s, e, rng))
  {
    match e
    case Press(_, _) =>
    case Frame(left, right, width, height) =>
      PhysicsPreservesValid(s, left, right, width, height, rng);
  }

  /** One physics tick keeps the invariant. */
  lemma PhysicsPreservesValid(s: GameState, left: bool, right: bool, width: int, height: int, rng: Stream)
    requires Valid(s)
    ensures Valid(UpdatePhysics(s, left, right, width, height, rng))
  {
    var r := UpdatePhysics(s, left, right, width, height, rng);
    assert TickFacts(s, left, right, width, height, r);
    if r.level == s.level {
      KeptLayoutIsValid(s.platforms, r.platforms);
    } else {
      GeneratedListIsValid(r.platforms, r.level, width);
    }
  }

  /** Attempts and level never go down over any run. */
  lemma {:induction false} RunIsMonotone(s: GameState, es: seq<Event>, rng: Stream)
    ensures Run(s, es, rng).attempts >= s.attempts
    ensures Run(s, es, rng).level >= s.level
    decreases |es|
  {
    if |es| > 0 {
      RunIsMonotone(Step(s, es[0], rng), es[1..], rng);
    }
  }

  /** Every state a session reaches from a valid one is valid. */
  lemma {:induction false} RunPreservesValid(s: GameState, es: seq<Event>, rng: Stream)
    requires Valid(s)
    ensures Valid(Run(s, es, rng))
    decreases |es|
  {
    if |es| > 0 {
      StepPreservesValid(s, es[0], rng);
      RunPreservesValid(Step(s, es[0], rng), es[1..], rng);
    }
  }
}
