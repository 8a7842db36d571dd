/** The view's mutable fields as one immutable record, and the respawn reset. */
module State {
  import opened Geometry

  /** Level numbers start at 1 and are only ever incremented. */
  type Level = l: int | l >= 1 witness 1

  /** Where the player box is put on respawn and on a new level. */
  const SpawnRect := Rect(80.0, 80.0, 130.0, 130.0)
  const FogStart := 900.0
  const InitialSeed := 41

  /** `drawn` counts the calls made so far on the shared random generator. */
  datatype GameState = GameState(
    player: Rect,
    velocity: Vec2,
    level: Level,
    attempts: nat,
    cameraY: real,
    fogY: real,
    levelSeed: int,
    platforms: seq<Platform>,
    drawn: nat)

  /** Player, velocity, camera and fog as respawn and level generation leave them. */
  predicate AtSpawn(s: GameState) {
    s.player == SpawnRect && s.velocity == Vec2(0.0, 0.0) && s.cameraY == 0.0 && s.fogY == FogStart
  }

  /** Hides every fake and hidden platform again; nothing else about the list changes. */
  function HideTraps(ps: seq<Platform>): (r: seq<Platform>)
    ensures |r| == |ps|
    ensures forall i :: 0 <= i < |ps| ==> r[i].SameLayout(ps[i])
    ensures forall i :: 0 <= i < |ps| && ps[i].Resettable() ==> !r[i].revealed
    ensures forall i :: 0 <= i < |ps| && !ps[i].Resettable() ==> r[i] == ps[i]
  {
    seq(|ps|, i requires 0 <= i < |ps| =>
      if ps[i].Resettable() then ps[i].(revealed := false) else ps[i])
  }

  /** Hiding the traps twice is hiding them once. */
  lemma HideTrapsIdempotent(ps: seq<Platform>)
    ensures HideTraps(HideTraps(ps)) == HideTraps(ps)
  {
    var once := HideTraps(ps);
    var twice := HideTraps(once);
    assert forall i :: 0 <= i < |ps| ==> twice[i] == once[i] by {
      forall i | 0 <= i < |ps|
        ensures twice[i] == once[i]
      {
        assert once[i].Resettable() == ps[i].Resettable();
      }
    }
  }

  /** `respawn`: one more attempt, the player back at spawn, the fog and camera
      reset, and every fake or hidden platform hidden again. */
  function Respawn(s: GameState): (r: GameState)
    ensures r.attempts == s.attempts + 1
    ensures AtSpawn(r)
    ensures r.level == s.level && r.levelSeed == s.levelSeed && r.drawn == s.drawn
    ensures |r.platforms| == |s.platforms|
    ensures forall i :: 0 <= i < |s.platforms| ==>
      r.platforms[i].SameLayout(s.platforms[i])
      && (r.platforms[i].revealed <==> s.platforms[i].revealed && !s.platforms[i].Resettable())
  {
    s.(attempts := s.attempts + 1,
       player := SpawnRect,
       velocity := Vec2(0.0, 0.0),
       cameraY := 0.0,
       fogY := FogStart,
       platforms := HideTraps(s.platforms))
  }

  /** Two respawns in a row differ from one only in the attempt counter. */
  lemma RespawnTwice(s: GameState)
    ensures Respawn(Respawn(s)) == Respawn(s).(attempts := s.attempts + 2)
  {
    HideTrapsIdempotent(s.platforms);
  }
}
