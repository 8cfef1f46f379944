/** Torpedoes, as far as the rest of the game sees them: where one was
    launched, the angle it flies at and its speed. Its flight is not modelled. */
module Torpedoes {

  class Torpedo {
    var center: (int, int)
    var angle: real
    const speed: int

    /** Torpedo(pos, angle, ..., speed=20). */
    constructor (pos: (int, int), angle: real, speed: int)
      ensures this.center == pos && this.angle == angle && this.speed == speed
    {
      this.center := pos;
      this.angle := angle;
      this.speed := speed;
    }
  }

  /** The speed a torpedo gets when the caller gives none (the fighter's). */
  const DefaultSpeed: int := 20

  /** ts are the fighter's torpedoes for shots: each leaves from the spawn point if a reset came
      before it, from the starting centre otherwise, at its angle and the default speed. */
  ghost predicate FiredFrom(ts: seq<Torpedo>, shots: seq<(bool, real)>, spawn: (int, int), start: (int, int))
    reads ts
  {
    |ts| == |shots| &&
    forall k :: 0 <= k < |ts| ==>
      ts[k].center == (if shots[k].0 then spawn else start) && ts[k].angle == shots[k].1 &&
      ts[k].speed == DefaultSpeed
  }
}
