/**
 The mixing rule every mixture property of the pipeline uses: a weighted average of two
 phase properties, weighted by the volume fraction of the second phase. Liquid density and
 liquid viscosity blend oil with water by water cut; mixture density and mixture viscosity
 blend liquid with gas by gas fraction.
 */
module Mixing {
  import Signs

  /** `v` lies in the closed interval spanned by `a` and `b`, in either order. */
  predicate Between(v: real, a: real, b: real) {
    (a <= v <= b) || (b <= v <= a)
  }

  function Abs(x: real): real {
    if x < 0.0 then -x else x
  }

  /** Property `a` of the first phase blended with property `b` of the second, where `w` is
      the second phase's fraction. For a fraction in [0, 1] the blend is a convex
      combination: it stays between the two properties and reaches each at the ends. */
  function Blend(a: real, b: real, w: real): (r: real)
    ensures 0.0 <= w <= 1.0 ==> Between(r, a, b)
    ensures w == 0.0 ==> r == a
    ensures w == 1.0 ==> r == b
  {
    ConvexCombination(a, b, w);
    a * (1.0 - w) + b * w
  }

  lemma ConvexCombination(a: real, b: real, w: real)
    ensures 0.0 <= w <= 1.0 ==> Between(a * (1.0 - w) + b * w, a, b)
  {
    var r := a * (1.0 - w) + b * w;
    if 0.0 <= w <= 1.0 {
      // r lies w of the way from a to b, and 1 - w of the way back from b.
      assert r - a == (b - a) * w;
      assert b - r == (b - a) * (1.0 - w);
      if a <= b {
        Signs.MulNonNegative(b - a, w);
        Signs.MulNonNegative(b - a, 1.0 - w);
      } else {
        Signs.MulNonNegative(a - b, w);
        Signs.MulNonNegative(a - b, 1.0 - w);
        assert (a - b) * w == -((b - a) * w);
        assert (a - b) * (1.0 - w) == -((b - a) * (1.0 - w));
      }
    }
  }

  /** A fraction of a span lies between zero and the span. */
  lemma FractionOfSpan(d: real, w: real)
    requires 0.0 <= w <= 1.0 && d >= 0.0
    ensures 0.0 <= d * w <= d
  {
    assert d * w <= d * 1.0;
  }

  /** Raising the second phase's fraction never moves the blend away from the second
      phase's property: the distance shrinks in proportion to the first phase's fraction. */
  lemma BlendApproachesSecondPhase(a: real, b: real, w1: real, w2: real)
    requires 0.0 <= w1 <= w2 <= 1.0
    ensures Abs(Blend(a, b, w2) - b) <= Abs(Blend(a, b, w1) - b)
    ensures Abs(Blend(a, b, w1) - b) == Abs(a - b) * (1.0 - w1)
  {
    assert Blend(a, b, w1) - b == (a - b) * (1.0 - w1);
    assert Blend(a, b, w2) - b == (a - b) * (1.0 - w2);
    AbsOfScaled(a - b, 1.0 - w1);
    AbsOfScaled(a - b, 1.0 - w2);
    var gap := Abs(a - b);
    assert gap * (1.0 - w1) - gap * (1.0 - w2) == gap * (w2 - w1);
    FractionOfSpan(gap, w2 - w1);
  }

  lemma AbsOfScaled(d: real, k: real)
    requires k >= 0.0
    ensures Abs(d * k) == Abs(d) * k
  {
    if d < 0.0 {
      assert d * k <= 0.0;
    }
  }

  /** Blending `a` with `w` and then the result with `g` leaves an offset from `w` made of
      the two phases' offsets, each weighted by its share of the final blend. */
  lemma BlendOfBlendOffset(a: real, w: real, g: real, wct: real, gf: real)
    ensures Blend(Blend(a, w, wct), g, gf) - w == (1.0 - wct) * (1.0 - gf) * (a - w) + gf * (g - w)
  {
    var l := Blend(a, w, wct);
    assert l - w == (1.0 - wct) * (a - w);
    assert Blend(l, g, gf) - w == (l - w) * (1.0 - gf) + gf * (g - w);
  }

  /** The same offset when the oil weight is a share `s` and the gas weight `r` times it. */
  lemma BlendOfBlendByShare(a: real, w: real, g: real, wct: real, gf: real, s: real, r: real)
    requires (1.0 - wct) * (1.0 - gf) == s && gf == r * s
    ensures Blend(Blend(a, w, wct), g, gf) - w == s * ((a - w) + r * (g - w))
  {
    BlendOfBlendOffset(a, w, g, wct, gf);
    assert (1.0 - wct) * (1.0 - gf) * (a - w) == s * (a - w);
    assert gf * (g - w) == s * (r * (g - w));
  }

  /** Two values whose offsets from `base` are multiples of the same `k`: the one with the
      smaller non-negative factor is no farther from `base`. */
  lemma CloserByShare(vx: real, vy: real, base: real, sx: real, sy: real, k: real)
    requires vx - base == sx * k && vy - base == sy * k
    requires 0.0 <= sy <= sx
    ensures Abs(vy - base) <= Abs(vx - base)
  {
    SmallerMultipleCloser(k, sx, sy);
  }

  /** A smaller non-negative multiple of an offset is no farther from zero. */
  lemma SmallerMultipleCloser(k: real, s1: real, s2: real)
    requires 0.0 <= s2 <= s1
    ensures Abs(s2 * k) <= Abs(s1 * k)
  {
    AbsOfScaled(k, s1);
    AbsOfScaled(k, s2);
    assert Abs(k) * s1 - Abs(k) * s2 == Abs(k) * (s1 - s2);
    assert Abs(k) * (s1 - s2) >= 0.0 by {
      if k != 0.0 && s1 > s2 {
        assert Abs(k) > 0.0;
      }
    }
  }
}

