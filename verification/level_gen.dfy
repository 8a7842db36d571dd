/** `generateLevel`: the start platform, a randomised chain of platforms with
    trap flags, side traps from level 3 on, and a goal below everything. */
module LevelGen {
  import opened Geometry
  import opened Rng
  import opened State

  const Gap := 170.0
  const BaseWidth := 220.0
  const FirstChainY := 320.0
  const StartPlatform := Platform(Rect(40.0, 180.0, 360.0, 220.0), false, false, false, false, false)

  function Min(a: real, b: real): real { if a <= b then a else b }

  function Max(a: real, b: real): real { if a >= b then a else b }

  /** Kotlin's `coerceIn`. */
  function Clamp(v: real, lo: real, hi: real): (r: real)
    requires lo <= hi
    ensures lo <= r <= hi
    ensures lo <= v <= hi ==> r == v
    ensures v < lo ==> r == lo
    ensures v > hi ==> r == hi
  {
    if v < lo then lo else if v > hi then hi else v
  }

  function FakeChance(level: Level): real { Min(0.45, 0.12 + level as real * 0.03) }

  function DeadlyChance(level: Level): real { Min(0.25, 0.05 + level as real * 0.02) }

  function HiddenChance(level: Level): real { Min(0.4, 0.08 + level as real * 0.025) }

  function ChainLength(level: Level): nat { 22 + 2 * level }

  /** Chain platform `index` is followed by a side trap: indices 0, 5, 10, ...
      once the level exceeds 2. */
  predicate HasSideTrap(level: Level, index: int) {
    index % 5 == 0 && level > 2
  }

  /** Chain platforms 0, 5, 10, ... get a side trap once the level exceeds 2:
      one per started group of five. */
  function SideTrapCount(level: Level): nat {
    if level > 2 then (ChainLength(level) + 4) / 5 else 0
  }

  /** Start platform, chain, side traps and goal. */
  function PlatformCount(level: Level): nat {
    1 + ChainLength(level) + SideTrapCount(level) + 1
  }

  /** Right end of the range a chain platform's left edge is kept in. */
  function MaxChainX(width: int): real { Max(40.0, width as real - BaseWidth - 40.0) }

  /** A chain platform: left edge inside the allowed range, at least 110 wide, 34 high. */
  predicate ChainShaped(p: Platform, width: int) {
    40.0 <= p.rect.left <= MaxChainX(width) && p.rect.Width() >= 110.0 && p.rect.Height() == 34.0
  }

  /** A side trap: always deadly, never fake or hidden, 82 wide and 34 high. */
  predicate SideTrapShaped(p: Platform) {
    p.deadly && !p.fake && !p.hiddenUntilTouch && p.rect.Width() == 82.0 && p.rect.Height() == 34.0
  }

  /** A side trap as the loop places it beside a chain platform: 18 to the
      right of it, 20 higher, 82 wide and 34 high. */
  predicate SideTrapBeside(main: Platform, side: Platform) {
    && SideTrapShaped(side)
    && side.rect == Rect(main.rect.right + 18.0, main.rect.top - 20.0, main.rect.right + 100.0, main.rect.top + 14.0)
  }

  /** Where chain platform `j` sits among the platforms the chain loop adds:
      after `j` earlier chain platforms and the side traps of the earlier
      multiples of five. */
  function ChainSlot(level: Level, j: nat): nat {
    j + (if level > 2 then (j + 4) / 5 else 0)
  }

  /** A chain-shaped platform at position `i`. */
  predicate MainAt(ps: seq<Platform>, i: int, width: int) {
    0 <= i < |ps| && ChainShaped(ps[i], width)
  }

  /** The platform after position `i` is a side trap beside the one at `i`. */
  predicate SideAt(ps: seq<Platform>, i: int) {
    0 <= i && i + 1 < |ps| && SideTrapBeside(ps[i], ps[i + 1])
  }

  /** Chain platforms `from` to `count - 1` lie in `ps` at their slots, counted
      from position `offset`, each followed by its side trap when it has one. */
  predicate Slotted(ps: seq<Platform>, level: Level, width: int, offset: int, from: nat, count: nat) {
    forall j: nat :: from <= j < count ==>
      && MainAt(ps, offset + ChainSlot(level, j) - ChainSlot(level, from), width)
      && (HasSideTrap(level, j) ==> SideAt(ps, offset + ChainSlot(level, j) - ChainSlot(level, from)))
  }

  /** Each chain platform takes one slot, and one more when a side trap follows it. */
  lemma ChainSlotStep(level: Level, j: nat)
    ensures ChainSlot(level, j + 1) == ChainSlot(level, j) + (if HasSideTrap(level, j) then 2 else 1)
  {
    var q, m := j / 5, j % 5;
    assert j == 5 * q + m;
    assert (j + 5) / 5 == q + 1;
    if m == 0 {
      assert (j + 4) / 5 == q;
    } else {
      assert (j + 4) / 5 == q + 1;
    }
  }

  /** One round's platforms in front of the slotted rest of the chain. */
  lemma SlottedStep(a: seq<Platform>, b: seq<Platform>, level: Level, width: int, index: nat, count: nat)
    requires index < count
    requires |a| == (if HasSideTrap(level, index) then 2 else 1)
    requires ChainShaped(a[0], width)
    requires |a| == 2 ==> SideTrapBeside(a[0], a[1])
    requires |b| == ChainSlot(level, count) - ChainSlot(level, index + 1)
    requires Slotted(b, level, width, 0, index + 1, count)
    ensures Slotted(a + b, level, width, 0, index, count)
  {
    ChainSlotStep(level, index);
    var c := a + b;
    forall j: nat | index <= j < count
      ensures MainAt(c, ChainSlot(level, j) - ChainSlot(level, index), width)
      ensures HasSideTrap(level, j) ==> SideAt(c, ChainSlot(level, j) - ChainSlot(level, index))
    {
      var i := ChainSlot(level, j) - ChainSlot(level, index);
      if j == index {
        assert c[0] == a[0];
        if HasSideTrap(level, j) {
          assert c[1] == a[1];
        }
      } else {
        var i1 := ChainSlot(level, j) - ChainSlot(level, index + 1);
        assert MainAt(b, i1, width);
        assert i == |a| + i1;
        assert c[i] == b[i1];
        if HasSideTrap(level, j) {
          assert SideAt(b, i1);
          assert c[i + 1] == b[i1 + 1];
        }
      }
    }
  }

  /** Flags as generation leaves them: the priority order keeps deadly away from
      fake and hidden away from deadly, and nothing starts revealed. */
  predicate FreshFlags(p: Platform) {
    (p.deadly ==> !p.fake) && (p.hiddenUntilTouch ==> !p.deadly) && !p.isGoal && !p.revealed
  }

  /** A platform the chain loop can produce at this level: fresh flags, and
      chain-shaped or, from level 3 on, a side trap. */
  predicate ChainMember(p: Platform, level: Level, width: int) {
    FreshFlags(p) && (ChainShaped(p, width) || (level > 2 && SideTrapShaped(p)))
  }

  /** Every platform of `ps` is a chain member no lower than `low`; when `reached`,
      some chain-shaped platform lies exactly at `low`. */
  predicate ChainBody(ps: seq<Platform>, level: Level, width: int, low: real, reached: bool) {
    && (forall k :: 0 <= k < |ps| ==> ChainMember(ps[k], level, width) && ps[k].rect.top <= low)
    && (reached ==> exists k :: 0 <= k < |ps| && ps[k].rect.top == low && ChainShaped(ps[k], width))
  }

  /** Joining one round's platforms to the rest of the chain. */
  lemma ChainBodyAppend(a: seq<Platform>, b: seq<Platform>, level: Level, width: int, ya: real, yb: real, bReached: bool)
    requires ChainBody(a, level, width, ya, true)
    requires ChainBody(b, level, width, yb, bReached)
    requires bReached || yb == ya
    requires ya <= yb
    ensures ChainBody(a + b, level, width, yb, true)
  {
    var c := a + b;
    forall k | 0 <= k < |c|
      ensures ChainMember(c[k], level, width) && c[k].rect.top <= yb
    {
      if k < |a| { assert c[k] == a[k]; } else { assert c[k] == b[k - |a|]; }
    }
    if bReached {
      var k :| 0 <= k < |b| && b[k].rect.top == yb && ChainShaped(b[k], width);
      assert c[|a| + k] == b[k];
    } else {
      var k :| 0 <= k < |a| && a[k].rect.top == ya && ChainShaped(a[k], width);
      assert c[k] == a[k];
    }
  }

  /** The trap flags of one chain platform and how many draws deciding them took. */
  datatype Traps = Traps(fake: bool, deadly: bool, hidden: bool, used: nat)

  /** Fake first; deadly only when not fake; hidden only when not deadly. A
      draw is made only for a flag whose guard holds. */
  function DrawTraps(level: Level, rng: Stream, pos: nat): (t: Traps)
    ensures t.fake <==> rng(pos) < FakeChance(level)
    ensures t.deadly <==> !t.fake && rng(pos + 1) < DeadlyChance(level)
    ensures t.deadly ==> !t.hidden
    ensures !t.deadly ==> (t.hidden <==> rng(if t.fake then pos + 1 else pos + 2) < HiddenChance(level))
    ensures t.used == (if t.deadly || t.fake then 2 else 3)
  {
    if rng(pos) < FakeChance(level) then
      Traps(true, false, rng(pos + 1) < HiddenChance(level), 2)
    else if rng(pos + 1) < DeadlyChance(level) then
      Traps(false, true, false, 2)
    else
      Traps(false, false, rng(pos + 2) < HiddenChance(level), 3)
  }

  /** Platforms added by one round of the chain loop, the carried x and y, and
      the generator position after it. */
  datatype Step = Step(platforms: seq<Platform>, x: real, y: real, pos: nat)

  /** One round of the chain loop for chain index `index`. */
  function ChainStep(level: Level, width: int, rng: Stream, index: nat, x: real, y: real, pos: nat): (st: Step)
    ensures |st.platforms| == (if HasSideTrap(level, index) then 2 else 1)
    ensures st.platforms[0].rect.left == st.x && ChainShaped(st.platforms[0], width)
    ensures var t := DrawTraps(level, rng, pos + 2);
      && st.platforms[0].fake == t.fake && st.platforms[0].deadly == t.deadly
      && st.platforms[0].hiddenUntilTouch == t.hidden
    ensures |st.platforms| == 2 ==> SideTrapBeside(st.platforms[0], st.platforms[1])
    ensures ChainBody(st.platforms, level, width, st.y, true)
    ensures y + 125.0 <= st.y < y + 265.0
    ensures pos + 5 <= st.pos <= pos + 6
  {
    var x1 := Clamp(x + NextInt(-180, 180, rng(pos)) as real, 40.0, MaxChainX(width));
    var y1 := y + Gap + NextInt(-45, 95, rng(pos + 1)) as real;
    var t := DrawTraps(level, rng, pos + 2);
    var shift := NextInt(-70, 40, rng(pos + 2 + t.used));
    var w := Max(110.0, BaseWidth + shift as real - (level * 3) as real);
    var main := Platform(Rect(x1, y1, x1 + w, y1 + 34.0), t.fake, t.deadly, t.hidden, false, false);
    var side :=
      if HasSideTrap(level, index) then
        [Platform(Rect(x1 + w + 18.0, y1 - 20.0, x1 + w + 100.0, y1 + 14.0), false, true, false, false, false)]
      else [];
    var ps := [main] + side;
    assert ps[0] == main;
    Step(ps, x1, y1, pos + 3 + t.used)
  }

  /** The chain loop from round `index` up to `count`. */
  function BuildChain(level: Level, width: int, rng: Stream, index: nat, count: nat, x: real, y: real, pos: nat): (c: Step)
    requires index <= count
    decreases count - index
    ensures |c.platforms| == ChainSlot(level, count) - ChainSlot(level, index)
    ensures Slotted(c.platforms, level, width, 0, index, count)
    ensures ChainBody(c.platforms, level, width, c.y, index < count)
    ensures c.y >= y + 125.0 * (count - index) as real
    ensures pos + 5 * (count - index) <= c.pos <= pos + 6 * (count - index)
  {
    if index == count then Step([], x, y, pos)
    else
      ChainSlotStep(level, index);
      var st := ChainStep(level, width, rng, index, x, y, pos);
      var rest := BuildChain(level, width, rng, index + 1, count, st.x, st.y, st.pos);
      ChainBodyAppend(st.platforms, rest.platforms, level, width, st.y, rest.y, index + 1 < count);
      SlottedStep(st.platforms, rest.platforms, level, width, index, count);
      Step(st.platforms + rest.platforms, rest.x, rest.y, rest.pos)
  }

  /** Kotlin's `maxOf { it.rect.top }`: the largest top, which some element has. */
  function MaxTop(ps: seq<Platform>): (m: real)
    requires |ps| > 0
    ensures forall i :: 0 <= i < |ps| ==> ps[i].rect.top <= m
    ensures exists i :: 0 <= i < |ps| && ps[i].rect.top == m
  {
    if |ps| == 1 then ps[0].rect.top
    else
      var rest := MaxTop(ps[1..]);
      if ps[0].rect.top >= rest then ps[0].rect.top else rest
  }

  /** Exactly one goal, and it is the last platform. */
  predicate GoalIsLast(ps: seq<Platform>) {
    |ps| > 0 && ps[|ps| - 1].isGoal && forall i :: 0 <= i < |ps| - 1 ==> !ps[i].isGoal
  }

  /** The platform list of a level and the generator position after it. */
  datatype Layout = Layout(platforms: seq<Platform>, pos: nat)

  /** What every generated list looks like: the start platform first, the only
      goal last, 180 below the lowest platform and centred on the view, and in
      between chain platforms and side traps with fresh flags, every chain
      platform at its slot and followed by its side trap when it has one. */
  predicate LevelShape(ps: seq<Platform>, level: Level, width: int) {
    && |ps| == PlatformCount(level)
    && ps[0] == StartPlatform
    && GoalIsLast(ps)
    && (forall i :: 0 < i < |ps| - 1 ==> ChainMember(ps[i], level, width))
    && Slotted(ps, level, width, 1, 0, ChainLength(level))
    && var goal := ps[|ps| - 1];
    && goal.rect == Rect(width as real * 0.5 - 120.0, goal.rect.top, width as real * 0.5 + 120.0, goal.rect.top + 36.0)
    && !goal.fake && !goal.deadly && !goal.hiddenUntilTouch && !goal.revealed
    && (forall i :: 0 <= i < |ps| - 1 ==> ps[i].rect.top + 180.0 <= goal.rect.top)
    && (exists i :: 0 < i < |ps| - 1 && ChainShaped(ps[i], width) && ps[i].rect.top + 180.0 == goal.rect.top)
  }

  /** The list `generateLevel` builds, starting at generator position `pos`
      (the draw after the discarded one). */
  function LevelLayout(level: Level, width: int, rng: Stream, pos: nat): (lay: Layout)
    ensures LevelShape(lay.platforms, level, width)
    ensures pos + 5 * ChainLength(level) <= lay.pos <= pos + 6 * ChainLength(level)
  {
    var n := ChainLength(level);
    var x0 := (if width >= 900 then width else 900) as real * 0.1;
    var c := BuildChain(level, width, rng, 0, n, x0, FirstChainY, pos);
    var body := [StartPlatform] + c.platforms;
    var top := MaxTop(body) + 180.0;
    var half := width as real * 0.5;
    var goal := Platform(Rect(half - 120.0, top, half + 120.0, top + 36.0), false, false, false, true, false);
    var ps := body + [goal];
    GenerateLayoutFacts(level, width, c.platforms, c.y, goal, ps);
    Layout(ps, c.pos)
  }

  /** The shape facts of `LevelLayout`, proved from the chain's contract. */
  lemma GenerateLayoutFacts(level: Level, width: int, chain: seq<Platform>, low: real, goal: Platform, ps: seq<Platform>)
    requires |chain| == PlatformCount(level) - 2
    requires ChainBody(chain, level, width, low, true)
    requires Slotted(chain, level, width, 0, 0, ChainLength(level))
    requires low >= FirstChainY
    requires goal.isGoal && goal.rect.top == MaxTop([StartPlatform] + chain) + 180.0
    requires goal.rect == Rect(width as real * 0.5 - 120.0, goal.rect.top, width as real * 0.5 + 120.0, goal.rect.top + 36.0)
    requires !goal.fake && !goal.deadly && !goal.hiddenUntilTouch && !goal.revealed
    requires ps == [StartPlatform] + chain + [goal]
    ensures goal.rect.top == low + 180.0
    ensures LevelShape(ps, level, width)
  {
    var body := [StartPlatform] + chain;
    assert forall i :: 0 < i < |body| ==> body[i] == chain[i - 1];
    assert forall i :: 0 <= i < |body| ==> ps[i] == body[i];
    var k :| 0 <= k < |chain| && chain[k].rect.top == low && ChainShaped(chain[k], width);
    assert body[k + 1].rect.top == low;
    assert MaxTop(body) == low;
    assert ps[k + 1] == chain[k];
    SlottedEmbed(chain, ps, level, width);
  }

  /** The chain's slots, seen from the whole list: one position further on. */
  lemma SlottedEmbed(chain: seq<Platform>, ps: seq<Platform>, level: Level, width: int)
    requires |ps| == |chain| + 2 && ps[1..|ps| - 1] == chain
    requires Slotted(chain, level, width, 0, 0, ChainLength(level))
    ensures Slotted(ps, level, width, 1, 0, ChainLength(level))
  {
    forall j: nat | 0 <= j < ChainLength(level)
      ensures MainAt(ps, 1 + ChainSlot(level, j) - ChainSlot(level, 0), width)
      ensures HasSideTrap(level, j) ==> SideAt(ps, 1 + ChainSlot(level, j) - ChainSlot(level, 0))
    {
      var i := ChainSlot(level, j) - ChainSlot(level, 0);
      assert MainAt(chain, i, width);
      assert ps[1 + i] == chain[i];
      if HasSideTrap(level, j) {
        assert SideAt(chain, i);
        assert ps[2 + i] == chain[i + 1];
      }
    }
  }

  /** `generateLevel` for the current level and viewport width: discards one
      draw, rebuilds the platform list, and resets player, velocity, camera and fog. */
  function GenerateLevel(s: GameState, width: int, rng: Stream): (r: GameState)
    ensures LevelShape(r.platforms, s.level, width)
    ensures AtSpawn(r)
    ensures r.level == s.level && r.attempts == s.attempts && r.levelSeed == s.levelSeed
    ensures s.drawn + 1 + 5 * ChainLength(s.level) <= r.drawn <= s.drawn + 1 + 6 * ChainLength(s.level)
  {
    var lay := LevelLayout(s.level, width, rng, s.drawn + 1);
    s.(platforms := lay.platforms,
       player := SpawnRect,
       velocity := Vec2(0.0, 0.0),
       cameraY := 0.0,
       fogY := FogStart,
       drawn := lay.pos)
  }

  /** Level 1: 24 chain platforms, no side traps, the start and the goal. */
  lemma FirstLevelCount(s: GameState, width: int, rng: Stream)
    requires s.level == 1
    ensures |GenerateLevel(s, width, rng).platforms| == 26
  {
    assert PlatformCount(1) == 26;
  }
}
