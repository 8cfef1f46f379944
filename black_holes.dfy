/** Black holes: gravity wells whose size grows on every spawn-ramp event
    until it has passed 200. */
module BlackHoles {

  /** The size up to which enlarge still grows a hole. */
  const GrowthLimit: int := 200
  /** How much one enlarge adds. */
  const GrowthStep: int := 3
  /** No hole that starts at or below the limit grows beyond this. */
  const MaxSize: int := GrowthLimit + GrowthStep

  /** The size after one call of enlarge. */
  function Enlarged(size: int): (r: int)
    ensures size <= r <= size + GrowthStep
    ensures size <= MaxSize ==> r <= MaxSize
  {
    if size <= GrowthLimit then size + GrowthStep else size
  }

  /** The size after n calls of enlarge. */
  function EnlargedTimes(size: int, n: nat): int
  {
    if n == 0 then size else Enlarged(EnlargedTimes(size, n - 1))
  }

  /** The number of enlarge calls that still change a hole of this size. */
  function GrowthSteps(size: int): (k: nat)
    ensures size > GrowthLimit ==> k == 0
    ensures size <= GrowthLimit ==> size + GrowthStep * (k - 1) <= GrowthLimit < size + GrowthStep * k
  {
    if size > GrowthLimit then 0 else (GrowthLimit - size) / GrowthStep + 1
  }

  /** One enlarge grows a hole by exactly 3 while it is at most 200, and leaves it alone after that. */
  lemma EnlargedGrowsOrStops(size: int)
    ensures size <= GrowthLimit ==> Enlarged(size) == size + 3
    ensures size > GrowthLimit ==> Enlarged(size) == size
    ensures Enlarged(size) >= size
  {
  }

  /** Closed form: n enlarges grow the size by 3 per call for as many calls as it takes to pass 200. */
  lemma {:induction false} EnlargedTimesClosedForm(size: int, n: nat)
    ensures EnlargedTimes(size, n) == size + GrowthStep * (if n <= GrowthSteps(size) then n else GrowthSteps(size))
  {
    if n > 0 {
      EnlargedTimesClosedForm(size, n - 1);
    }
  }

  /** A hole that starts at no more than 203 never grows beyond 203, however often it is enlarged. */
  lemma {:induction false} EnlargedTimesBounded(size: int, n: nat)
    requires size <= MaxSize
    ensures size <= EnlargedTimes(size, n) <= MaxSize
  {
    if n > 0 {
      EnlargedTimesBounded(size, n - 1);
    }
  }

  class BlackHole {
    const pos: (int, int)
    var size: int

    /** BlackHole(pos, size): the source always passes a size. */
    constructor (pos: (int, int), size: int)
      ensures this.pos == pos && this.size == size
    {
      this.pos := pos;
      this.size := size;
    }

    /** The `gravity` property, size / 100. */
    function Gravity(): (g: real)
      reads this
      ensures g * 100.0 == size as real
    {
      size as real / 100.0
    }

    method Enlarge()
      modifies this
      ensures size == Enlarged(old(size))
    {
      if size <= GrowthLimit {
        size := size + GrowthStep;
      }
    }
  }

  /** The `gravity` property of a hole never decreases when it is enlarged, and for a hole of
      size at most 203 it never exceeds 2.03. */
  lemma GravityBounded(h: BlackHole)
    requires h.size <= MaxSize
    ensures h.Gravity() <= 2.03
    ensures h.Gravity() <= Enlarged(h.size) as real / 100.0
  {
  }

  /** Each of holes has grown n times from its size in sizes0. */
  ghost predicate EnlargedFrom(holes: seq<BlackHole>, sizes0: seq<int>, n: nat)
    reads holes
  {
    |holes| == |sizes0| && forall k :: 0 <= k < |holes| ==> holes[k].size == EnlargedTimes(sizes0[k], n)
  }
}
