/** Small shared definitions: optional values, the rounding the game applies to
    positions, and the "death time" bookkeeping shared by the fighter and drones. */
module Common {

  datatype Option<T> = None | Some(value: T)

  function Max(a: int, b: int): (r: int)
    ensures r >= a && r >= b && (r == a || r == b)
  {
    if a >= b then a else b
  }

  /** Python's math.ceil: the least integer not below x. */
  function Ceil(x: real): (r: int)
    ensures r as real - 1.0 < x <= r as real
  {
    -((-x).Floor)
  }

  /** Python truthiness of an optional timestamp (`if self.death_time:`):
      None and 0.0 are both false. */
  predicate Truthy(t: Option<real>)
  {
    t.Some? && t.value != 0.0
  }

  /** `destroy` records the time of death only the first time it is called. */
  function MarkDestroyed(deathTime: Option<real>, now: real): (r: Option<real>)
    ensures r.Some?
    ensures deathTime.Some? ==> r == deathTime
    ensures deathTime.None? ==> r.value == now
  {
    if deathTime.None? then Some(now) else deathTime
  }

  /** Destroying twice is the same as destroying once, whatever the clock says. */
  lemma MarkDestroyedIdempotent(deathTime: Option<real>, first: real, second: real)
    ensures MarkDestroyed(MarkDestroyed(deathTime, first), second) == MarkDestroyed(deathTime, first)
  {
  }
}
