/** The drifting star field behind the game: every star moves by a fixed velocity each
    frame, stars that leave the screen are dropped and as many new ones enter at an edge. */
module StarField {

  /** One of the five kinds of star (a radius and a grey level), drawn with weights
      60, 30, 15, 7 and 3. */
  type StarKind = k: int | 0 <= k < 5

  const Radii: seq<int> := [1, 1, 2, 2, 3]
  const Shades: seq<int> := [80, 120, 145, 180, 225]
  const NumStars: nat := 500
  /** The velocity every star drifts with, per frame. */
  const Velocity: (real, real) := (-0.2, 0.1)

  datatype Star = Star(pos: (real, real), shade: int, radius: int)

  datatype Axis = X | Y

  /** The random choices for one new star: its kind, the axis chosen with weights |Velocity|,
      and the random coordinate along the entry edge. */
  datatype EdgeDraw = EdgeDraw(kind: StarKind, axis: Axis, offset: int)

  /** The random choices for one star of the initial field. */
  datatype FieldDraw = FieldDraw(kind: StarKind, x: int, y: int)

  /** random.randint(0, dimension) along the entry edge: both ends included. */
  predicate EdgeDrawFits(screen: (int, int), d: EdgeDraw)
  {
    0 <= d.offset <= (if d.axis == X then screen.0 else screen.1)
  }

  /** random.randint(0, width) and random.randint(0, height). */
  predicate FieldDrawFits(screen: (int, int), d: FieldDraw)
  {
    0 <= d.x <= screen.0 && 0 <= d.y <= screen.1
  }

  /** Strictly inside the screen rectangle: a star on an edge counts as gone. */
  function OnScreen(p: (real, real), screen: (int, int)): (r: bool)
    ensures r ==> screen.0 > 0 && screen.1 > 0
    ensures p.0 == 0.0 || p.1 == 0.0 || p.0 == screen.0 as real || p.1 == screen.1 as real ==> !r
  {
    0.0 < p.0 < screen.0 as real && 0.0 < p.1 < screen.1 as real
  }

  /** A star one frame later: it drifts left and down, keeping its shade and radius. */
  function Shifted(s: Star): (r: Star)
    ensures r.shade == s.shade && r.radius == s.radius
    ensures r.pos.0 < s.pos.0 && r.pos.1 > s.pos.1
  {
    s.(pos := (s.pos.0 + Velocity.0, s.pos.1 + Velocity.1))
  }

  /** The stars that stay after one frame, moved, in their original order. */
  function Kept(s: seq<Star>, screen: (int, int)): (r: seq<Star>)
    ensures |r| <= |s|
  {
    if s == [] then []
    else (if OnScreen(Shifted(s[0]).pos, screen) then [Shifted(s[0])] else []) + Kept(s[1..], screen)
  }

  /** new_stars: a star enters on the edge the field drifts away from (the top edge when
      it drifts down, the right edge when it drifts left), at the drawn offset. */
  function NewStar(d: EdgeDraw, screen: (int, int)): (s: Star)
    ensures s.pos.1 == 0.0 || s.pos.0 == screen.0 as real
    ensures s.shade == Shades[d.kind] && s.radius == Radii[d.kind]
    ensures screen.0 >= 0 && screen.1 >= 0 && EdgeDrawFits(screen, d) ==>
      0.0 <= s.pos.0 <= screen.0 as real && 0.0 <= s.pos.1 <= screen.1 as real
  {
    var pos := if d.axis == X then (d.offset as real, if Velocity.1 > 0.0 then 0.0 else screen.1 as real)
               else (if Velocity.0 > 0.0 then 0.0 else screen.0 as real, d.offset as real);
    Star(pos, Shades[d.kind], Radii[d.kind])
  }

  function Spawned(n: nat, draw: nat -> EdgeDraw, screen: (int, int)): (r: seq<Star>)
    ensures |r| == n
  {
    seq(n, (i: nat) => NewStar(draw(i), screen))
  }

  function FieldStar(d: FieldDraw): Star
  {
    Star((d.x as real, d.y as real), Shades[d.kind], Radii[d.kind])
  }

  /** A star survives exactly when it is on the screen after moving, and the survivors are
      moved stars of the old field. */
  lemma {:induction false} KeptMembers(s: seq<Star>, screen: (int, int), x: Star)
    ensures x in Kept(s, screen) <==> exists i :: 0 <= i < |s| && x == Shifted(s[i]) && OnScreen(x.pos, screen)
  {
    if s != [] {
      KeptMembers(s[1..], screen, x);
      if x in Kept(s[1..], screen) {
        var i :| 0 <= i < |s[1..]| && x == Shifted(s[1..][i]) && OnScreen(x.pos, screen);
        assert x == Shifted(s[i + 1]);
      }
      if exists i :: 0 <= i < |s| && x == Shifted(s[i]) && OnScreen(x.pos, screen) {
        var i :| 0 <= i < |s| && x == Shifted(s[i]) && OnScreen(x.pos, screen);
        if i > 0 {
          assert s[1..][i - 1] == s[i];
        }
      }
    }
  }

  /** Filtering keeps the relative order: the survivors of s + t are those of s followed by
      those of t. */
  lemma {:induction false} KeptConcat(s: seq<Star>, t: seq<Star>, screen: (int, int))
    ensures Kept(s + t, screen) == Kept(s, screen) + Kept(t, screen)
  {
    if s == [] {
      assert s + t == t;
    } else {
      assert (s + t)[1..] == s[1..] + t;
      KeptConcat(s[1..], t, screen);
    }
  }

  /** When no star leaves the screen, every star is kept, in place, moved by the velocity. */
  lemma {:induction false} KeptAllOnScreen(s: seq<Star>, screen: (int, int))
    requires forall i :: 0 <= i < |s| ==> OnScreen(Shifted(s[i]).pos, screen)
    ensures Kept(s, screen) == seq(|s|, i requires 0 <= i < |s| => Shifted(s[i]))
  {
    if s != [] {
      KeptAllOnScreen(s[1..], screen);
    }
  }

  class Stars {
    const screen: (int, int)
    var stars: seq<Star>

    /** Stars(screen_shape): 500 stars at random positions. */
    constructor (screen: (int, int), draw: nat -> FieldDraw)
      requires forall i: nat :: FieldDrawFits(screen, draw(i))
      ensures this.screen == screen
      ensures |stars| == NumStars
      ensures forall i :: 0 <= i < NumStars ==> stars[i] == FieldStar(draw(i))
    {
      this.screen := screen;
      stars := [];
      new;
      var k := 0;
      while k < NumStars
        invariant 0 <= k <= NumStars
        invariant |stars| == k
        invariant forall i :: 0 <= i < k ==> stars[i] == FieldStar(draw(i))
      {
        stars := stars + [FieldStar(draw(k))];
        k := k + 1;
      }
    }

    /** Stars.update: walk the field from the back, move each star, delete those that have left
        the screen, then add as many new stars as were deleted. */
    method Update(draw: nat -> EdgeDraw)
      requires forall i: nat :: EdgeDrawFits(screen, draw(i))
      modifies this
      ensures stars == Kept(old(stars), screen) + Spawned(|old(stars)| - |Kept(old(stars), screen)|, draw, screen)
      ensures |stars| == |old(stars)|
    {
      ghost var s0 := stars;
      var numNew := 0;
      var i := |stars|;
      while i > 0
        invariant 0 <= i <= |s0|
        invariant stars == s0[..i] + Kept(s0[i..], screen)
        invariant numNew == (|s0| - i) - |Kept(s0[i..], screen)|
        decreases i
      {
        i := i - 1;
        assert stars[i] == s0[i];
        assert s0[i..][1..] == s0[i + 1..];
        var star := Shifted(stars[i]);
        stars := stars[i := star];
        if !OnScreen(star.pos, screen) {
          stars := stars[..i] + stars[i + 1..];
          numNew := numNew + 1;
        }
        assert s0[..i + 1][..i] == s0[..i];
      }
      assert s0[0..] == s0;
      NewStars(numNew, draw);
    }

    /** new_stars: append num_new stars entering at an edge. */
    method NewStars(numNew: nat, draw: nat -> EdgeDraw)
      requires forall i: nat :: EdgeDrawFits(screen, draw(i))
      modifies this
      ensures stars == old(stars) + Spawned(numNew, draw, screen)
    {
      var k := 0;
      while k < numNew
        invariant 0 <= k <= numNew
        invariant stars == old(stars) + Spawned(k, draw, screen)
      {
        assert Spawned(k + 1, draw, screen) == Spawned(k, draw, screen) + [NewStar(draw(k), screen)];
        stars := stars + [NewStar(draw(k), screen)];
        k := k + 1;
      }
    }
  }
}
