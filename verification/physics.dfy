/** `updatePhysics` and the jump guard: one tick of movement, the in-order
    platform pass, the confusion impulse, the fog step and the death checks. */
module Physics {
  import opened Geometry
  import opened Rng
  import opened State
  import opened LevelGen

  const Gravity := 0.86

  function MoveSpeed(level: Level): real { 8.0 + level as real * 0.28 }

  /** How far the fog line moves each tick. */
  function FogStep(level: Level): real { 0.55 + level as real * 0.06 }

  function ConfusionChance(level: Level): real { 0.015 * (if level < 12 then level else 12) as real }

  function JumpSpeed(level: Level): real { -16.0 - (if level < 8 then level else 8) as real }

  /** Horizontal velocity from the two intents: a direction only when its
      button alone is held, standing still when both or neither are. */
  function HorizontalVelocity(left: bool, right: bool, level: Level): (vx: real)
    ensures vx == -MoveSpeed(level) <==> left && !right
    ensures vx == MoveSpeed(level) <==> right && !left
    ensures vx == 0.0 <==> left == right
  {
    if left && !right then -MoveSpeed(level)
    else if right && !left then MoveSpeed(level)
    else 0.0
  }

  /** The horizontal clamp: shift right if past the left edge, then shift left
      if past the right edge. The right edge always ends inside the view; the
      left one does too whenever the box fits. */
  function ClampX(p: Rect, width: int): (r: Rect)
    ensures r.right <= width as real
    ensures p.Width() <= width as real ==> r.left >= 0.0
    ensures r.top == p.top && r.bottom == p.bottom && r.Width() == p.Width()
    ensures 0.0 <= p.left && p.right <= width as real ==> r == p
    ensures r.left == Min(Max(p.left, 0.0), width as real - p.Width())
  {
    var a := if p.left < 0.0 then p.Offset(-p.left, 0.0) else p;
    if a.right > width as real then a.Offset(width as real - a.right, 0.0) else a
  }

  /** The jump guard of the touch handler: a press in the upper half of the
      view sets the upward speed, but only when the vertical speed is near zero. */
  function Jump(s: GameState, touchY: real, height: int): (r: GameState)
    ensures r == s.(velocity := r.velocity) && r.velocity.x == s.velocity.x
    ensures r.velocity.y != s.velocity.y ==> -0.5 < s.velocity.y < 0.5 && touchY < height as real / 2.0
    ensures -0.5 < s.velocity.y < 0.5 && touchY < height as real / 2.0 ==> r.velocity.y == JumpSpeed(s.level)
  {
    var vy := s.velocity.y;
    var abs := if vy < 0.0 then -vy else vy;
    if touchY < height as real / 2.0 && abs < 0.5 then s.(velocity := Vec2(s.velocity.x, JumpSpeed(s.level)))
    else s
  }

  /** A jump cannot be repeated in mid-air: right after one takes effect, a second press changes nothing. */
  lemma NoDoubleJump(s: GameState, y1: real, y2: real, height: int)
    requires Jump(s, y1, height) != s
    ensures Jump(Jump(s, y1, height), y2, height) == Jump(s, y1, height)
  {
  }

  /** Reveals a hidden platform once the player's centre is lower than 16 above its top. */
  function Reveal(p: Platform, player: Rect): (q: Platform)
    ensures q.SameLayout(p)
    ensures q.revealed <==> p.revealed || (p.hiddenUntilTouch && player.CenterY() > p.rect.top - 16.0)
  {
    if p.hiddenUntilTouch && !p.revealed && player.CenterY() > p.rect.top - 16.0 then p.(revealed := true)
    else p
  }

  /** Overlap test: horizontal overlap, bottom edge between the platform's top
      and 26 below its bottom, and not moving up. */
  predicate Hits(p: Platform, player: Rect, vy: real) {
    && player.right > p.rect.left && player.left < p.rect.right
    && player.bottom >= p.rect.top && player.bottom <= p.rect.bottom + 26.0
    && vy >= 0.0
  }

  /** What visiting one platform does. Every case carries the platform as it is afterwards. */
  datatype Contact =
    | Passed(p: Platform)
    | Landed(p: Platform, player: Rect)
    | Killed(p: Platform)
    | ReachedGoal(p: Platform)

  /** The platform is a crumbled fake this round: fake, and revealed before
      the round or by its reveal test. */
  predicate Crumbled(p: Platform, player: Rect) {
    p.fake && (p.revealed || (p.hiddenUntilTouch && player.CenterY() > p.rect.top - 16.0))
  }

  /** One round of the platform loop. A crumbled fake or a miss is passed; a
      hit kills on a deadly platform, reaches a goal, and lands on anything else. */
  function Visit(p: Platform, player: Rect, vy: real): (c: Contact)
    ensures c.Passed? <==> Crumbled(p, player) || !Hits(p, player, vy)
    ensures c.Killed? <==> !Crumbled(p, player) && Hits(p, player, vy) && p.deadly
    ensures c.ReachedGoal? <==> !Crumbled(p, player) && Hits(p, player, vy) && !p.deadly && p.isGoal
    ensures c.Landed? <==> !Crumbled(p, player) && Hits(p, player, vy) && !p.deadly && !p.isGoal
    ensures !(c.Landed? && p.fake) ==> c.p == Reveal(p, player)
    ensures c.p.SameLayout(p)
    ensures p.revealed ==> c.p.revealed
    ensures c.p.revealed != p.revealed ==> p.Resettable()
    ensures p.fake && p.revealed ==> c == Passed(p)
    ensures c.Killed? <==> p.deadly && !c.Passed? && Hits(p, player, vy)
    ensures c.ReachedGoal? ==> p.isGoal && !p.deadly && Hits(p, player, vy)
    ensures c.Landed? ==>
      && !p.deadly && !p.isGoal && Hits(p, player, vy) && !(p.fake && p.revealed)
      && c.player == player.Offset(0.0, p.rect.top - player.bottom)
      && c.player.bottom == p.rect.top
      && (p.fake ==> c.p.revealed)
    ensures c.Passed? ==> !Hits(p, player, vy) || (c.p.fake && c.p.revealed)
    ensures !p.fake && p.hiddenUntilTouch && !c.ReachedGoal? ==>
      (c.p.revealed <==> p.revealed || player.CenterY() > p.rect.top - 16.0)
  {
    var q := Reveal(p, player);
    if q.fake && q.revealed then Passed(q)
    else if !Hits(q, player, vy) then Passed(q)
    else if q.deadly then Killed(q)
    else if q.isGoal then ReachedGoal(q)
    else Landed(if q.fake then q.(revealed := true) else q, player.Offset(0.0, q.rect.top - player.bottom))
  }

  /** The fake-platform crumble: once the player has landed on a fake platform,
      the platform is passed over on every later visit, whatever the player does. */
  lemma FakeCrumbles(p: Platform, player: Rect, vy: real, later: Rect, laterVy: real)
    requires p.fake
    requires Visit(p, player, vy).Landed?
    ensures Visit(Visit(p, player, vy).p, later, laterVy) == Passed(Visit(p, player, vy).p)
  {
  }

  /** The reveal test is strict: a player whose centre is exactly 16 above a
      hidden platform's top does not reveal it. */
  lemma HiddenRevealIsStrict(p: Platform, player: Rect, vy: real)
    requires p.hiddenUntilTouch && !p.fake && !p.revealed && !p.isGoal
    requires player.CenterY() == p.rect.top - 16.0
    ensures !Visit(p, player, vy).p.revealed
  {
  }

  /** A platform that is both fake and hidden is revealed and skipped in the same
      round as soon as the player's centre comes within 16 of its top. */
  lemma FakeHiddenVanishesOnApproach(p: Platform, player: Rect, vy: real)
    requires p.fake && p.hiddenUntilTouch && !p.revealed
    requires player.CenterY() > p.rect.top - 16.0
    ensures Visit(p, player, vy) == Passed(p.(revealed := true))
  {
  }

  /** Outcome of the platform loop: it ran to the end, or a deadly contact or
      a goal landing cut it short. */
  datatype PassResult =
    | Finished(platforms: seq<Platform>, player: Rect, vy: real, grounded: bool)
    | Died(platforms: seq<Platform>)
    | Advanced

  /** Platforms that differ from `ps` only by flags turned on for fake or hidden ones. */
  predicate OnlyReveals(ps: seq<Platform>, qs: seq<Platform>) {
    |qs| == |ps|
    && forall i :: 0 <= i < |ps| ==>
      qs[i].SameLayout(ps[i]) && (ps[i].revealed ==> qs[i].revealed)
      && (qs[i].revealed != ps[i].revealed ==> ps[i].Resettable())
  }

  /** Platform `k` is one a landing can have happened on, with the player's bottom on its top. */
  predicate LandingSpot(ps: seq<Platform>, k: int, player: Rect) {
    0 <= k < |ps| && !ps[k].deadly && !ps[k].isGoal && !(ps[k].fake && ps[k].revealed)
    && player.bottom == ps[k].rect.top
  }

  /** Platform `k` is deadly and the loop stopped there: everything after it is untouched. */
  predicate StoppedAt(ps: seq<Platform>, qs: seq<Platform>, k: int) {
    0 <= k < |ps| == |qs| && ps[k].deadly && qs[k + 1..] == ps[k + 1..]
  }

  /** What the platform loop promises, for each way it can end. A loop that ran to
      the end moved the player only vertically, and only by landing on a platform
      that is neither deadly, a goal, nor a crumbled fake. */
  ghost predicate SweepFacts(ps: seq<Platform>, player: Rect, vy: real, r: PassResult) {
    && (!r.Advanced? ==> OnlyReveals(ps, r.platforms))
    && (r.Died? ==> exists k :: StoppedAt(ps, r.platforms, k))
    && (r.Advanced? ==> exists k :: 0 <= k < |ps| && ps[k].isGoal && !ps[k].deadly)
    && (r.Finished? ==>
         && r.player.left == player.left && r.player.Width() == player.Width()
         && r.player.Height() == player.Height()
         && (!r.grounded ==> r.player == player && r.vy == vy)
         && (r.grounded ==> r.vy == 0.0 && exists k :: LandingSpot(ps, k, r.player)))
  }

  /** Player box and vertical speed as the platform loop carries them. */
  datatype Mover = Mover(player: Rect, vy: real)

  /** The carried state after one visit: a landing puts the player on the
      platform and stops the fall; any other visit leaves it alone. */
  function After(c: Contact, m: Mover): Mover {
    if c.Landed? then Mover(c.player, 0.0) else m
  }

  /** The player box and speed the loop holds on reaching platform `k`,
      counted from the front of the list. */
  function Carry(ps: seq<Platform>, player: Rect, vy: real, k: nat): Mover
    requires k <= |ps|
  {
    if k == 0 then Mover(player, vy)
    else
      var m := Carry(ps, player, vy, k - 1);
      After(Visit(ps[k - 1], m.player, m.vy), m)
  }

  /** What the loop's visit to platform `k` does. */
  function Meet(ps: seq<Platform>, player: Rect, vy: real, k: nat): Contact
    requires k < |ps|
  {
    var m := Carry(ps, player, vy, k);
    Visit(ps[k], m.player, m.vy)
  }

  /** A visit after which the loop goes on to the next platform. */
  predicate GoesOn(c: Contact) {
    c.Passed? || c.Landed?
  }

  /** No visit before platform `k` cut the loop short. */
  predicate ClearUpTo(ps: seq<Platform>, player: Rect, vy: real, k: nat) {
    k <= |ps| && forall j :: 0 <= j < k ==> GoesOn(Meet(ps, player, vy, j))
  }

  /** The first `k` platforms of `qs` are what the loop's visits left of them. */
  predicate Visited(ps: seq<Platform>, player: Rect, vy: real, k: nat, qs: seq<Platform>) {
    k <= |ps| == |qs| && forall j :: 0 <= j < k ==> qs[j] == Meet(ps, player, vy, j).p
  }

  /** How the loop ends once it has got past the first `k` platforms: at the end
      of the list it finishes with the carried player and speed, grounded exactly
      when some visit landed; at a deadly hit it dies there; at a goal hit it
      advances; otherwise this `k` decides nothing. */
  ghost predicate Reaches(ps: seq<Platform>, player: Rect, vy: real, k: nat, r: PassResult)
    requires k <= |ps|
  {
    if k == |ps| then
      && r.Finished?
      && r.player == Carry(ps, player, vy, k).player && r.vy == Carry(ps, player, vy, k).vy
      && (r.grounded <==> exists j :: 0 <= j < k && Meet(ps, player, vy, j).Landed?)
      && Visited(ps, player, vy, k, r.platforms)
    else
      match Meet(ps, player, vy, k)
      case Killed(_) => r.Died? && StoppedAt(ps, r.platforms, k) && Visited(ps, player, vy, k + 1, r.platforms)
      case ReachedGoal(_) => r.Advanced?
      case _ => true
  }

  /** The visits in list order decide the outcome: the first one that does not
      let the loop go on, or the end of the list. */
  ghost predicate PassDetermined(ps: seq<Platform>, player: Rect, vy: real, r: PassResult) {
    forall k: nat :: ClearUpTo(ps, player, vy, k) ==> Reaches(ps, player, vy, k, r)
  }

  /** Puts the visited platform in front of the outcome of the rest of the loop. */
  function Prepend(q: Platform, rest: PassResult, landed: bool): PassResult {
    match rest
    case Finished(ps, pl, vy, g) => Finished([q] + ps, pl, vy, g || landed)
    case Died(ps) => Died([q] + ps)
    case Advanced => Advanced
  }

  /** The platform loop, in list order, from the given player box and vertical speed. */
  function Sweep(ps: seq<Platform>, player: Rect, vy: real): (r: PassResult)
    decreases |ps|
    ensures SweepFacts(ps, player, vy, r)
    ensures PassDetermined(ps, player, vy, r)
  {
    if |ps| == 0 then
      DeterminedEmpty(player, vy);
      Finished([], player, vy, false)
    else
      match Visit(ps[0], player, vy)
      case Passed(q) =>
        var rest := Sweep(ps[1..], player, vy);
        SweepFactsPrepend(ps, player, vy, player, vy, q, rest, false);
        DeterminedPrepend(ps, player, vy, q, rest);
        Prepend(q, rest, false)
      case Landed(q, pl) =>
        var rest := Sweep(ps[1..], pl, 0.0);
        SweepFactsPrepend(ps, player, vy, pl, 0.0, q, rest, true);
        DeterminedPrepend(ps, player, vy, q, rest);
        Prepend(q, rest, true)
      case Killed(q) =>
        SweepFactsKilled(ps, player, vy, q);
        DeterminedStop(ps, player, vy, Died([q] + ps[1..]));
        Died([q] + ps[1..])
      case ReachedGoal(_) =>
        DeterminedStop(ps, player, vy, Advanced);
        Advanced
  }

  /** The loop's promises survive putting one more visited platform in front. */
  lemma SweepFactsPrepend(ps: seq<Platform>, player: Rect, vy: real, pl: Rect, vy1: real,
                          q: Platform, rest: PassResult, landed: bool)
    requires |ps| > 0
    requires landed ==> Visit(ps[0], player, vy) == Landed(q, pl) && vy1 == 0.0
    requires !landed ==> Visit(ps[0], player, vy) == Passed(q) && pl == player && vy1 == vy
    requires SweepFacts(ps[1..], pl, vy1, rest)
    ensures SweepFacts(ps, player, vy, Prepend(q, rest, landed))
  {
    var r := Prepend(q, rest, landed);
    if !rest.Advanced? {
      assert r.platforms == [q] + rest.platforms;
      forall i | 0 < i < |ps|
        ensures r.platforms[i] == rest.platforms[i - 1] && ps[i] == ps[1..][i - 1]
      {
      }
    }
    if rest.Died? {
      var k :| StoppedAt(ps[1..], rest.platforms, k);
      assert r.platforms[k + 2..] == rest.platforms[k + 1..];
      assert ps[k + 2..] == ps[1..][k + 1..];
      assert StoppedAt(ps, r.platforms, k + 1);
    }
    if rest.Advanced? {
      var k :| 0 <= k < |ps[1..]| && ps[1..][k].isGoal && !ps[1..][k].deadly;
      assert ps[k + 1] == ps[1..][k];
    }
    if rest.Finished? {
      if rest.grounded {
        var k :| LandingSpot(ps[1..], k, rest.player);
        assert LandingSpot(ps, k + 1, rest.player);
      } else if landed {
        assert LandingSpot(ps, 0, pl);
      }
    }
  }

  /** A deadly contact on the first platform stops the loop there. */
  lemma SweepFactsKilled(ps: seq<Platform>, player: Rect, vy: real, q: Platform)
    requires |ps| > 0
    requires Visit(ps[0], player, vy) == Killed(q)
    ensures SweepFacts(ps, player, vy, Died([q] + ps[1..]))
  {
    var qs := [q] + ps[1..];
    assert qs[1..] == ps[1..];
    assert StoppedAt(ps, qs, 0);
  }

  /** An empty list: the loop finishes at once, with nothing carried. */
  lemma DeterminedEmpty(player: Rect, vy: real)
    ensures PassDetermined([], player, vy, Finished([], player, vy, false))
  {
    forall k: nat | ClearUpTo([], player, vy, k)
      ensures Reaches([], player, vy, k, Finished([], player, vy, false))
    {
      assert Carry([], player, vy, k) == Mover(player, vy);
    }
  }

  /** Carrying the player past the first platform, then over the rest, is
      carrying it over the whole list. */
  lemma {:induction false} CarryShift(ps: seq<Platform>, player: Rect, vy: real, k: nat)
    requires k < |ps|
    ensures var m := After(Visit(ps[0], player, vy), Mover(player, vy));
      Carry(ps, player, vy, k + 1) == Carry(ps[1..], m.player, m.vy, k)
    decreases k
  {
    if k > 0 {
      CarryShift(ps, player, vy, k - 1);
      assert ps[k] == ps[1..][k - 1];
    }
  }

  /** Visit `j + 1` of the whole list is visit `j` of the rest. */
  lemma MeetShift(ps: seq<Platform>, player: Rect, vy: real, j: nat)
    requires j + 1 < |ps|
    ensures var m := After(Visit(ps[0], player, vy), Mover(player, vy));
      Meet(ps, player, vy, j + 1) == Meet(ps[1..], m.player, m.vy, j)
  {
    CarryShift(ps, player, vy, j);
    assert ps[j + 1] == ps[1..][j];
  }

  /** A first visit that stops the loop decides the outcome. */
  lemma DeterminedStop(ps: seq<Platform>, player: Rect, vy: real, r: PassResult)
    requires |ps| > 0 && !GoesOn(Visit(ps[0], player, vy))
    requires Visit(ps[0], player, vy).Killed? ==> r == Died([Visit(ps[0], player, vy).p] + ps[1..])
    requires Visit(ps[0], player, vy).ReachedGoal? ==> r == Advanced
    ensures PassDetermined(ps, player, vy, r)
  {
    forall k: nat | ClearUpTo(ps, player, vy, k)
      ensures Reaches(ps, player, vy, k, r)
    {
      assert Meet(ps, player, vy, 0) == Visit(ps[0], player, vy);
      assert k == 0;
      if r.Died? {
        assert r.platforms[1..] == ps[1..];
      }
    }
  }

  /** A first visit that lets the loop go on: the outcome of the rest decides. */
  lemma DeterminedPrepend(ps: seq<Platform>, player: Rect, vy: real, q: Platform, rest: PassResult)
    requires |ps| > 0
    requires GoesOn(Visit(ps[0], player, vy)) && q == Visit(ps[0], player, vy).p
    requires var m := After(Visit(ps[0], player, vy), Mover(player, vy));
      PassDetermined(ps[1..], m.player, m.vy, rest)
    ensures PassDetermined(ps, player, vy, Prepend(q, rest, Visit(ps[0], player, vy).Landed?))
  {
    var m := After(Visit(ps[0], player, vy), Mover(player, vy));
    var r := Prepend(q, rest, Visit(ps[0], player, vy).Landed?);
    forall k: nat | ClearUpTo(ps, player, vy, k)
      ensures Reaches(ps, player, vy, k, r)
    {
      assert Meet(ps, player, vy, 0) == Visit(ps[0], player, vy);
      if k > 0 {
        forall j | 0 <= j < k - 1
          ensures GoesOn(Meet(ps[1..], m.player, m.vy, j))
        {
          MeetShift(ps, player, vy, j);
        }
        assert ClearUpTo(ps[1..], m.player, m.vy, k - 1);
        ReachesPrepend(ps, player, vy, q, rest, k);
      }
    }
  }

  /** One step of `DeterminedPrepend`, for a given `k` past the first platform. */
  lemma ReachesPrepend(ps: seq<Platform>, player: Rect, vy: real, q: Platform, rest: PassResult, k: nat)
    requires 0 < k <= |ps|
    requires GoesOn(Visit(ps[0], player, vy)) && q == Visit(ps[0], player, vy).p
    requires var m := After(Visit(ps[0], player, vy), Mover(player, vy));
      Reaches(ps[1..], m.player, m.vy, k - 1, rest)
    ensures Reaches(ps, player, vy, k, Prepend(q, rest, Visit(ps[0], player, vy).Landed?))
  {
    if k == |ps| {
      ReachesPrependEnd(ps, player, vy, q, rest);
    } else {
      MeetShift(ps, player, vy, k - 1);
      if Meet(ps, player, vy, k).Killed? {
        ReachesPrependStop(ps, player, vy, q, rest, k);
      }
    }
  }

  /** `ReachesPrepend` at the end of the list: the finished loop's carried state and landings. */
  lemma ReachesPrependEnd(ps: seq<Platform>, player: Rect, vy: real, q: Platform, rest: PassResult)
    requires 0 < |ps|
    requires GoesOn(Visit(ps[0], player, vy)) && q == Visit(ps[0], player, vy).p
    requires var m := After(Visit(ps[0], player, vy), Mover(player, vy));
      Reaches(ps[1..], m.player, m.vy, |ps| - 1, rest)
    ensures Reaches(ps, player, vy, |ps|, Prepend(q, rest, Visit(ps[0], player, vy).Landed?))
  {
    var k := |ps|;
    CarryShift(ps, player, vy, k - 1);
    VisitedPrepend(ps, player, vy, rest.platforms, k - 1);
    LandedPrepend(ps, player, vy, rest.grounded);
  }

  /** Some visit of the whole list lands exactly when the first one does or
      some visit of the rest does. */
  lemma LandedPrepend(ps: seq<Platform>, player: Rect, vy: real, g: bool)
    requires 0 < |ps|
    requires var m := After(Visit(ps[0], player, vy), Mover(player, vy));
      g <==> exists j :: 0 <= j < |ps| - 1 && Meet(ps[1..], m.player, m.vy, j).Landed?
    ensures g || Visit(ps[0], player, vy).Landed? <==> exists j :: 0 <= j < |ps| && Meet(ps, player, vy, j).Landed?
  {
    var m := After(Visit(ps[0], player, vy), Mover(player, vy));
    assert Meet(ps, player, vy, 0) == Visit(ps[0], player, vy);
    if g {
      var j :| 0 <= j < |ps| - 1 && Meet(ps[1..], m.player, m.vy, j).Landed?;
      MeetShift(ps, player, vy, j);
      assert Meet(ps, player, vy, j + 1).Landed?;
    }
    if exists j :: 0 <= j < |ps| && Meet(ps, player, vy, j).Landed? {
      var j :| 0 <= j < |ps| && Meet(ps, player, vy, j).Landed?;
      if j > 0 {
        MeetShift(ps, player, vy, j - 1);
        assert Meet(ps[1..], m.player, m.vy, j - 1).Landed?;
      }
    }
  }

  /** `ReachesPrepend` at a deadly hit further down the list. */
  lemma ReachesPrependStop(ps: seq<Platform>, player: Rect, vy: real, q: Platform, rest: PassResult, k: nat)
    requires 0 < k < |ps|
    requires GoesOn(Visit(ps[0], player, vy)) && q == Visit(ps[0], player, vy).p
    requires var m := After(Visit(ps[0], player, vy), Mover(player, vy));
      && Meet(ps[1..], m.player, m.vy, k - 1).Killed?
      && Reaches(ps[1..], m.player, m.vy, k - 1, rest)
    ensures rest.Died?
    ensures var r := Prepend(q, rest, Visit(ps[0], player, vy).Landed?);
      StoppedAt(ps, r.platforms, k) && Visited(ps, player, vy, k + 1, r.platforms)
  {
    var r := Prepend(q, rest, Visit(ps[0], player, vy).Landed?);
    VisitedPrepend(ps, player, vy, rest.platforms, k);
    assert r.platforms[k + 1..] == rest.platforms[k..];
    assert ps[k + 1..] == ps[1..][k..];
  }

  /** What the visits left of the rest, behind the first visited platform. */
  lemma VisitedPrepend(ps: seq<Platform>, player: Rect, vy: real, qs: seq<Platform>, k: nat)
    requires |ps| > 0
    requires var m := After(Visit(ps[0], player, vy), Mover(player, vy));
      Visited(ps[1..], m.player, m.vy, k, qs)
    ensures Visited(ps, player, vy, k + 1, [Visit(ps[0], player, vy).p] + qs)
  {
    var rs := [Visit(ps[0], player, vy).p] + qs;
    assert Meet(ps, player, vy, 0) == Visit(ps[0], player, vy);
    forall j | 0 < j < k + 1
      ensures rs[j] == Meet(ps, player, vy, j).p
    {
      MeetShift(ps, player, vy, j - 1);
    }
  }

  /** A fake platform that has crumbled is never landed on again: whatever the
      player does on the way to it, its visit passes it over unchanged. */
  lemma CrumbledFakeIsSkipped(ps: seq<Platform>, player: Rect, vy: real, k: int)
    requires 0 <= k < |ps| && ps[k].fake && ps[k].revealed
    ensures Meet(ps, player, vy, k) == Passed(ps[k])
    ensures var r := Sweep(ps, player, vy); !r.Advanced? ==> r.platforms[k] == ps[k]
  {
  }

  /** When the player touches no platform, no visit moves it or changes its speed. */
  lemma {:induction false} UntouchedCarry(ps: seq<Platform>, player: Rect, vy: real, k: nat)
    requires k <= |ps|
    requires forall j :: 0 <= j < |ps| ==> !Hits(ps[j], player, vy)
    ensures Carry(ps, player, vy, k) == Mover(player, vy)
    decreases k
  {
    if k > 0 {
      UntouchedCarry(ps, player, vy, k - 1);
      assert !Hits(ps[k - 1], player, vy);
      assert Visit(ps[k - 1], player, vy).Passed?;
    }
  }

  /** When the player touches no platform, every visit passes, leaving the
      platform as the reveal test does. */
  lemma UntouchedMeets(ps: seq<Platform>, player: Rect, vy: real)
    requires forall j :: 0 <= j < |ps| ==> !Hits(ps[j], player, vy)
    ensures forall j :: 0 <= j < |ps| ==> Meet(ps, player, vy, j) == Passed(Reveal(ps[j], player))
  {
    forall j | 0 <= j < |ps|
      ensures Meet(ps, player, vy, j) == Passed(Reveal(ps[j], player))
    {
      UntouchedCarry(ps, player, vy, j);
      assert !Hits(ps[j], player, vy);
    }
  }

  /** A loop in which the player touches no platform runs to the end without
      moving the player or changing its speed, and only applies the reveal test. */
  lemma UntouchedPassFinishes(ps: seq<Platform>, player: Rect, vy: real)
    requires forall j :: 0 <= j < |ps| ==> !Hits(ps[j], player, vy)
    ensures var r := Sweep(ps, player, vy);
      r.Finished? && r == Finished(r.platforms, player, vy, false)
      && forall j :: 0 <= j < |ps| ==> r.platforms[j] == Reveal(ps[j], player)
  {
    UntouchedCarry(ps, player, vy, |ps|);
    UntouchedMeets(ps, player, vy);
    assert ClearUpTo(ps, player, vy, |ps|);
    assert Reaches(ps, player, vy, |ps|, Sweep(ps, player, vy));
  }

  /** Vertical speed after gravity. */
  function FallSpeed(s: GameState): real { s.velocity.y + Gravity }

  /** The player box after the move and the horizontal clamp, before the platform loop. */
  function Moved(s: GameState, left: bool, right: bool, width: int): Rect {
    ClampX(s.player.Offset(HorizontalVelocity(left, right, s.level), FallSpeed(s)), width)
  }

  /** The two death checks after the fog step: below the fog line, or far below the view. */
  predicate Dead(player: Rect, fogY: real, cameraY: real, height: int) {
    player.top > fogY || player.top > cameraY + height as real + 220.0
  }

  /** The confusion impulse fires: the player is airborne and more than 40
      above the fog, and the draw falls under the level's chance. */
  predicate Impulse(s: GameState, rng: Stream, pl: Rect, grounded: bool) {
    !grounded && pl.bottom < s.fogY - 40.0 && rng(s.drawn) < ConfusionChance(s.level)
  }

  /** Same list, same boxes and kinds; only fake or hidden platforms may have become revealed. */
  predicate KeepsLayout(ps: seq<Platform>, qs: seq<Platform>) {
    |qs| == |ps|
    && forall i :: 0 <= i < |ps| ==>
      qs[i].SameLayout(ps[i]) && (qs[i].revealed ==> ps[i].revealed || ps[i].Resettable())
  }

  /** What one tick promises. Attempts grow by at most one, and only through a
      respawn; the level grows by at most one, and only through a goal landing,
      which also adds 13 to the seed and builds a fresh level; within a level the
      platform list keeps its layout and at most one draw is made; and a tick that
      neither respawns nor advances moves the fog by exactly one step, applies the
      chosen horizontal speed, keeps the camera, and leaves the player alive. */
  ghost predicate TickFacts(s: GameState, left: bool, right: bool, width: int, height: int, r: GameState) {
    && (r.attempts == s.attempts || r.attempts == s.attempts + 1)
    && (r.level == s.level || r.level == s.level + 1)
    && (r.attempts == s.attempts + 1 ==> AtSpawn(r) && r.level == s.level)
    && (r.level == s.level ==>
          r.levelSeed == s.levelSeed && s.drawn <= r.drawn <= s.drawn + 1 && KeepsLayout(s.platforms, r.platforms))
    && (r.level == s.level + 1 ==>
          && r.levelSeed == s.levelSeed + 13 && r.attempts == s.attempts && AtSpawn(r)
          && LevelShape(r.platforms, r.level, width) && r.drawn > s.drawn)
    && (r.player == SpawnRect || (r.player.Width() == s.player.Width() && r.player.Height() == s.player.Height()))
    && (r.level == s.level && r.attempts == s.attempts ==>
          && r.fogY == s.fogY + FogStep(s.level)
          && r.cameraY == s.cameraY
          && r.velocity.x == HorizontalVelocity(left, right, s.level)
          && r.player.right <= width as real
          && !Dead(r.player, r.fogY, r.cameraY, height))
  }

  /** Which way the tick ends, given how the platform loop ended: a deadly
      contact respawns at once with no draw; a goal landing advances the level;
      a loop that ran to the end respawns exactly when the player box it left is
      dead after the fog step, hiding the traps again when it does, and
      otherwise keeps that box and the revealed platforms and applies the
      confusion impulse to the speed; either way the impulse's draw is made
      exactly when the player was airborne and more than 40 above the fog. */
  ghost predicate FollowsPass(s: GameState, rng: Stream, height: int, sw: PassResult, r: GameState) {
    && (sw.Died? ==>
          r.attempts == s.attempts + 1 && r.level == s.level && r.drawn == s.drawn
          && r.platforms == HideTraps(sw.platforms))
    && (sw.Advanced? ==> r.level == s.level + 1)
    && (sw.Finished? ==>
          && r.level == s.level
          && (r.attempts == s.attempts + 1 <==> Dead(sw.player, s.fogY + FogStep(s.level), s.cameraY, height))
          && r.drawn == (if !sw.grounded && sw.player.bottom < s.fogY - 40.0 then s.drawn + 1 else s.drawn)
          && (r.attempts == s.attempts + 1 ==> r.platforms == HideTraps(sw.platforms))
          && (r.attempts == s.attempts ==>
                && r.player == sw.player && r.platforms == sw.platforms
                && r.velocity.y == (if Impulse(s, rng, sw.player, sw.grounded) then sw.vy - 14.0 else sw.vy)))
  }

  /** The rest of the tick after a loop that ran to the end: the confusion
      impulse (drawing only when airborne and more than 40 above the fog), the
      fog step, and the death checks. */
  function AfterSweep(s: GameState, left: bool, right: bool, width: int, height: int, rng: Stream,
                      ps: seq<Platform>, pl: Rect, vy1: real, grounded: bool): (r: GameState)
    requires KeepsLayout(s.platforms, ps)
    requires pl.right <= width as real
    requires pl.Width() == s.player.Width() && pl.Height() == s.player.Height()
    ensures TickFacts(s, left, right, width, height, r)
    ensures FollowsPass(s, rng, height, Finished(ps, pl, vy1, grounded), r)
    ensures r.attempts == s.attempts ==> r.drawn == (if !grounded && pl.bottom < s.fogY - 40.0 then s.drawn + 1 else s.drawn)
  {
    var probe := !grounded && pl.bottom < s.fogY - 40.0;
    var vy2 := if probe && rng(s.drawn) < ConfusionChance(s.level) then vy1 - 14.0 else vy1;
    var fog := s.fogY + FogStep(s.level);
    var t := s.(player := pl, velocity := Vec2(HorizontalVelocity(left, right, s.level), vy2),
                platforms := ps, fogY := fog, drawn := if probe then s.drawn + 1 else s.drawn);
    if Dead(pl, fog, s.cameraY, height) then Respawn(t) else t
  }

  /** A loop that only revealed platforms keeps the layout. */
  lemma OnlyRevealsKeepsLayout(ps: seq<Platform>, qs: seq<Platform>)
    requires OnlyReveals(ps, qs)
    ensures KeepsLayout(ps, qs)
  {
  }

  /** `updatePhysics`: one tick, as `TickFacts` describes, ending as the
      platform loop over the moved player decides. */
  function UpdatePhysics(s: GameState, left: bool, right: bool, width: int, height: int, rng: Stream): (r: GameState)
    ensures TickFacts(s, left, right, width, height, r)
    ensures FollowsPass(s, rng, height, Sweep(s.platforms, Moved(s, left, right, width), FallSpeed(s)), r)
  {
    var moved := Moved(s, left, right, width);
    var sweep := Sweep(s.platforms, moved, FallSpeed(s));
    match sweep
    case Died(ps) =>
      OnlyRevealsKeepsLayout(s.platforms, ps);
      Respawn(s.(platforms := ps))
    case Advanced =>
      GenerateLevel(s.(level := s.level + 1, levelSeed := s.levelSeed + 13), width, rng)
    case Finished(ps, pl, vy1, grounded) =>
      OnlyRevealsKeepsLayout(s.platforms, ps);
      AfterSweep(s, left, right, width, height, rng, ps, pl, vy1, grounded)
  }

  /** A deadly contact ends the tick at once: when the visits before platform `k`
      all let the loop go on and platform `k` is a deadly hit, the tick respawns
      with no level change even if a goal comes later, and makes no draw. */
  lemma DeadlyContactAborts(s: GameState, left: bool, right: bool, width: int, height: int, rng: Stream, k: nat)
    requires ClearUpTo(s.platforms, Moved(s, left, right, width), FallSpeed(s), k)
    requires k < |s.platforms| && Meet(s.platforms, Moved(s, left, right, width), FallSpeed(s), k).Killed?
    ensures var r := UpdatePhysics(s, left, right, width, height, rng);
      r.attempts == s.attempts + 1 && r.level == s.level && r.drawn == s.drawn && r.fogY == FogStart
  {
    var sw := Sweep(s.platforms, Moved(s, left, right, width), FallSpeed(s));
    assert Reaches(s.platforms, Moved(s, left, right, width), FallSpeed(s), k, sw);
  }

  /** Platforms are checked in list order: when the first one is a deadly hit,
      the tick respawns whatever the rest of the list holds. */
  lemma FirstDeadlyWins(s: GameState, left: bool, right: bool, width: int, height: int, rng: Stream)
    requires |s.platforms| > 0
    requires Visit(s.platforms[0], Moved(s, left, right, width), FallSpeed(s)).Killed?
    ensures var r := UpdatePhysics(s, left, right, width, height, rng);
      r.attempts == s.attempts + 1 && r.level == s.level && r.drawn == s.drawn
  {
    DeadlyContactAborts(s, left, right, width, height, rng, 0);
  }

  /** A goal hit that no earlier visit cut short advances the level and the
      seed, keeps the attempt count, and the new list again ends in its only goal. */
  lemma GoalAdvances(s: GameState, left: bool, right: bool, width: int, height: int, rng: Stream, k: nat)
    requires ClearUpTo(s.platforms, Moved(s, left, right, width), FallSpeed(s), k)
    requires k < |s.platforms| && Meet(s.platforms, Moved(s, left, right, width), FallSpeed(s), k).ReachedGoal?
    ensures var r := UpdatePhysics(s, left, right, width, height, rng);
      && r.level == s.level + 1 && r.levelSeed == s.levelSeed + 13 && r.attempts == s.attempts
      && |r.platforms| == PlatformCount(r.level) && GoalIsLast(r.platforms)
  {
    var sw := Sweep(s.platforms, Moved(s, left, right, width), FallSpeed(s));
    assert Reaches(s.platforms, Moved(s, left, right, width), FallSpeed(s), k, sw);
  }

  /** A tick in which the moved player touches no platform: gravity and the
      horizontal move are all that moved the player, the tick respawns exactly
      when that box is dead after the fog step, and otherwise the speed is the
      fallen speed, less 14 when the confusion impulse fires. */
  lemma UntouchedTick(s: GameState, left: bool, right: bool, width: int, height: int, rng: Stream)
    requires forall j :: 0 <= j < |s.platforms| ==> !Hits(s.platforms[j], Moved(s, left, right, width), FallSpeed(s))
    ensures var r := UpdatePhysics(s, left, right, width, height, rng);
      var pl := Moved(s, left, right, width);
      && r.level == s.level
      && (r.attempts == s.attempts + 1 <==> Dead(pl, s.fogY + FogStep(s.level), s.cameraY, height))
      && (r.attempts == s.attempts ==>
            && r.player == pl
            && r.velocity == Vec2(HorizontalVelocity(left, right, s.level),
                                  if Impulse(s, rng, pl, false) then FallSpeed(s) - 14.0 else FallSpeed(s)))
  {
    UntouchedPassFinishes(s.platforms, Moved(s, left, right, width), FallSpeed(s));
  }
}
