/** pygame sprite groups: insertion-ordered collections holding each sprite once. */
module Sprites {

  /** The elements of s that are not in gone, in their original order. */
  function Without<T>(s: seq<T>, gone: set<T>): (r: seq<T>)
    ensures |r| <= |s|
    ensures forall x :: x in r ==> x in s && x !in gone
    ensures forall x :: x in s && x !in gone ==> x in r
  {
    if s == [] then []
    else (if s[0] in gone then [] else [s[0]]) + Without(s[1..], gone)
  }

  /** Removing nothing keeps the group as it is. */
  lemma {:induction false} WithoutNothing<T>(s: seq<T>)
    ensures Without(s, {}) == s
  {
    if s != [] {
      WithoutNothing(s[1..]);
      assert [s[0]] + s[1..] == s;
    }
  }

  ghost predicate Distinct<T>(s: seq<T>)
  {
    forall i, j :: 0 <= i < j < |s| ==> s[i] != s[j]
  }

  /** Removing sprites from a group keeps the other sprites once each. */
  lemma {:induction false} WithoutDistinct<T>(s: seq<T>, gone: set<T>)
    requires Distinct(s)
    ensures Distinct(Without(s, gone))
  {
    if s != [] {
      assert Distinct(s[1..]) by {
        forall i, j | 0 <= i < j < |s[1..]| ensures s[1..][i] != s[1..][j] {
          assert s[1..][i] == s[i + 1] && s[1..][j] == s[j + 1];
        }
      }
      WithoutDistinct(s[1..], gone);
      var rest := Without(s[1..], gone);
      var head: seq<T> := if s[0] in gone then [] else [s[0]];
      assert s[0] !in s[1..] by {
        forall k | 0 <= k < |s[1..]| ensures s[1..][k] != s[0] {
          assert s[1..][k] == s[k + 1];
        }
      }
      assert s[0] !in rest;
      var r := head + rest;
      forall i, j | 0 <= i < j < |r| ensures r[i] != r[j] {
        if |head| == 1 && i == 0 {
          assert r[j] == rest[j - 1];
          assert r[j] in rest;
        } else {
          assert r[i] == rest[i - |head|] && r[j] == rest[j - |head|];
        }
      }
    }
  }

  /** A pygame.sprite.Group. */
  class Group<T(==)> {
    var sprites: seq<T>

    ghost predicate Valid()
      reads this
    {
      Distinct(sprites)
    }

    constructor ()
      ensures Valid() && sprites == []
    {
      sprites := [];
    }

    /** Group.add: a sprite already in the group is not added again. */
    method Add(s: T)
      requires Valid()
      modifies this
      ensures Valid()
      ensures sprites == if s in old(sprites) then old(sprites) else old(sprites) + [s]
    {
      if s !in sprites {
        sprites := sprites + [s];
      }
    }

    /** Group.empty. */
    method Empty()
      modifies this
      ensures Valid() && sprites == []
    {
      sprites := [];
    }

    /** Sprite.kill on each of the given sprites, as far as this group sees it. */
    method RemoveAll(gone: set<T>)
      requires Valid()
      modifies this
      ensures Valid()
      ensures sprites == Without(old(sprites), gone)
    {
      WithoutDistinct(sprites, gone);
      sprites := Without(sprites, gone);
    }
  }
}
