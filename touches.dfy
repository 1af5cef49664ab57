/**
 * Touch samples as AppKit delivers them in an indirect (trackpad) touch
 * event: each contact has an identity, a phase and a position normalized
 * to the trackpad surface. Coordinates (CGFloat) are modelled as reals.
 */
module Touches {

  /** A position on the trackpad (CGPoint). */
  datatype Point = Point(x: real, y: real)

  /** A displacement between two positions (CGVector). */
  datatype Vector = Vector(dx: real, dy: real)

  /** A width and a height (CGSize). */
  datatype Size = Size(width: real, height: real)

  const Origin := Point(0.0, 0.0)
  const ZeroVector := Vector(0.0, 0.0)

  /** The component-wise difference `a - b`, as a point. */
  function Minus(a: Point, b: Point): Point {
    Point(a.x - b.x, a.y - b.y)
  }

  /** The displacement that leads from `from` to `to`. */
  function Displacement(from: Point, to: Point): Vector {
    Vector(to.x - from.x, to.y - from.y)
  }

  /** The single phases of an NSTouch. */
  datatype Phase = Began | Moved | Stationary | Ended | Cancelled

  /** The phase masks used with `touches(matching:in:)`: one phase,
      `.touching` (a finger that is down) or `.any`. */
  datatype PhaseMask = Only(phase: Phase) | Touching | AnyPhase

  predicate Matches(p: Phase, m: PhaseMask) {
    match m
    case Only(q) => p == q
    case Touching => p == Began || p == Moved || p == Stationary
    case AnyPhase => true
  }

  datatype Touch = Touch(identity: nat, phase: Phase, normalizedPosition: Point)

  /** The contacts of one touch event, in enumeration order. */
  type Event = seq<Touch>

  /** The touches of `e` whose phase matches `m`, keeping their order. */
  function Matching(e: Event, m: PhaseMask): (r: seq<Touch>)
    ensures |r| <= |e|
    ensures forall t :: t in r <==> t in e && Matches(t.phase, m)
    ensures m == AnyPhase ==> r == e
  {
    if e == [] then []
    else
      var rest := Matching(e[1..], m);
      if Matches(e[0].phase, m) then [e[0]] + rest else rest
  }

  /** Number of touches of `e` in the phases of `m`. */
  function Count(e: Event, m: PhaseMask): (n: nat)
    ensures n <= |e|
    ensures m == AnyPhase ==> n == |e|
  {
    |Matching(e, m)|
  }

  /** A touch that has just begun is also touching, so an event that holds
      a `.began` touch has a non-zero `.touching` count. */
  lemma BeganIsTouching(e: Event)
    requires Count(e, Only(Began)) > 0
    ensures Count(e, Touching) > 0
  {
    var t := Matching(e, Only(Began))[0];
    assert t in Matching(e, Touching);
  }

  /** No touch of `e` is in the phases of `m`: the count is zero. */
  lemma {:induction false} NoneMatching(e: Event, m: PhaseMask)
    requires forall t :: t in e ==> !Matches(t.phase, m)
    ensures Count(e, m) == 0
  {
    if e != [] {
      assert e[0] in e;
      NoneMatching(e[1..], m);
    }
  }

  /** The touches have distinct identities, as the members of the set an
      event holds do. Only such sequences stand for an event. */
  predicate Distinct(e: Event) {
    forall i, j :: 0 <= i < j < |e| ==> e[i].identity != e[j].identity
  }

  /** Filtering an event keeps its touches distinct, so on an event the
      count of matching touches is the size of the matching set. */
  lemma {:induction false} MatchingDistinct(e: Event, m: PhaseMask)
    requires Distinct(e)
    ensures Distinct(Matching(e, m))
  {
    if e != [] {
      var rest := Matching(e[1..], m);
      assert Distinct(e[1..]) by {
        forall i, j | 0 <= i < j < |e[1..]| ensures e[1..][i].identity != e[1..][j].identity {
          assert e[1..][i] == e[i + 1] && e[1..][j] == e[j + 1];
        }
      }
      MatchingDistinct(e[1..], m);
      if Matches(e[0].phase, m) {
        forall t | t in rest ensures t.identity != e[0].identity {
          var j :| 0 <= j < |e[1..]| && e[1..][j] == t;
          assert e[j + 1] == t;
        }
        var r := [e[0]] + rest;
        forall i, j | 0 <= i < j < |r| ensures r[i].identity != r[j].identity {
          assert r[j] == rest[j - 1] && r[j] in rest;
          if i > 0 {
            assert r[i] == rest[i - 1];
          }
        }
      }
    }
  }

  predicate InUnitSquare(s: seq<Touch>) {
    forall i :: 0 <= i < |s| ==>
      0.0 <= s[i].normalizedPosition.x <= 1.0 && 0.0 <= s[i].normalizedPosition.y <= 1.0
  }

  /** The sum of the normalized positions, folded from the left as
      `reduce(.zero) { $0 + $1 }` does. */
  function Sum(s: seq<Touch>): (r: Point)
    ensures InUnitSquare(s) ==> 0.0 <= r.x <= |s| as real && 0.0 <= r.y <= |s| as real
  {
    if s == [] then Origin
    else
      var p := Sum(s[..|s| - 1]);
      var q := s[|s| - 1].normalizedPosition;
      assert InUnitSquare(s) ==> InUnitSquare(s[..|s| - 1]);
      Point(p.x + q.x, p.y + q.y)
  }

  /** Adding one touch at the end adds its position to the sum. */
  lemma SumSnoc(a: seq<Touch>, t: Touch)
    ensures Sum(a + [t]).x == Sum(a).x + t.normalizedPosition.x
    ensures Sum(a + [t]).y == Sum(a).y + t.normalizedPosition.y
  {
    assert (a + [t])[..|a|] == a;
  }

  /** Removing element `j` before the last one commutes with removing the
      last one. */
  lemma RemoveBeforeLast(s: seq<Touch>, j: nat)
    requires j < |s| - 1
    ensures s[..j] + s[j + 1..] == (s[..|s| - 1][..j] + s[..|s| - 1][j + 1..]) + [s[|s| - 1]]
  {
  }

  /** Taking one element out of the sum. */
  lemma {:induction false} SumWithout(s: seq<Touch>, j: nat)
    requires j < |s|
    ensures Sum(s).x == Sum(s[..j] + s[j + 1..]).x + s[j].normalizedPosition.x
    ensures Sum(s).y == Sum(s[..j] + s[j + 1..]).y + s[j].normalizedPosition.y
    decreases |s|
  {
    var n := |s|;
    var init := s[..n - 1];
    assert s == init + [s[n - 1]];
    SumSnoc(init, s[n - 1]);
    if j == n - 1 {
      assert s[..j] + s[j + 1..] == init;
    } else {
      SumWithout(init, j);
      RemoveBeforeLast(s, j);
      SumSnoc(init[..j] + init[j + 1..], s[n - 1]);
    }
  }

  /** Taking the last element out of `s` and an equal element out of `t`
      keeps the two multisets equal. */
  lemma RemoveMatching(s: seq<Touch>, t: seq<Touch>, j: nat)
    requires multiset(s) == multiset(t) && 0 < |s| && j < |t| && t[j] == s[|s| - 1]
    ensures multiset(t[..j] + t[j + 1..]) == multiset(s[..|s| - 1])
  {
    var last, init := s[|s| - 1], s[..|s| - 1];
    assert t == t[..j] + [last] + t[j + 1..];
    assert multiset(t) == multiset(t[..j]) + multiset{last} + multiset(t[j + 1..]);
    assert multiset(t[..j] + t[j + 1..]) == multiset(t[..j]) + multiset(t[j + 1..]);
    assert s == init + [last];
    assert multiset(s) == multiset(init) + multiset{last};
    assert multiset(t[..j] + t[j + 1..]) == multiset(t) - multiset{last};
    assert multiset(init) == multiset(s) - multiset{last};
  }

  /** The sum does not depend on the order in which the set of touches is
      enumerated. */
  lemma {:induction false} SumOfPermutation(s: seq<Touch>, t: seq<Touch>)
    requires multiset(s) == multiset(t)
    ensures Sum(s) == Sum(t)
    decreases |s|
  {
    if s == [] {
      assert |t| == |multiset(t)| == 0;
    } else {
      var n := |s|;
      var last := s[n - 1];
      var init := s[..n - 1];
      assert last in multiset(t) by {
        assert s == init + [last];
      }
      var j :| 0 <= j < |t| && t[j] == last;
      RemoveMatching(s, t, j);
      SumOfPermutation(init, t[..j] + t[j + 1..]);
      SumWithout(t, j);
      assert s == init + [last];
      SumSnoc(init, last);
    }
  }
}
