/** Three places where the API route's sequencer does not do what its own
    design evidently means, each shown on a concrete outline as the code is
    written and then with the rule corrected; and the single-stroke glyph
    traced as the code is written. */
module Findings {
  import opened Geometry
  import opened GCode
  import opened Sequencer

  /** The API rules with all three corrections: every MoveTo that changes
      position travels, curve samples blend from the point the curve starts
      at, and the sampling loop makes its 21st pass, at t = 1.  Pen heights,
      the step of 1/20 and the lift on ClosePath stay as they are. */
  const CorrectedApiRules :=
    ApiRules.(travelOnFirstMoveOnly := false, liveCurveStart := false, samples := 21)

  // ---------------------------------------------------------------------
  // 1. A second contour of a glyph starts without a travel.

  /** Two strokes: (1,0)-(2,0), then a new contour (3,0)-(2,0). */
  const TwoContours := [MoveTo(1.0, 0.0), LineTo(2.0, 0.0), MoveTo(3.0, 0.0), LineTo(2.0, 0.0)]

  /** The commands the route emits for `TwoContours` at (0,0), scale 1. */
  const TwoContoursAsWritten :=
    [Travel(Point(1.0, 0.0)), Lower, Draw(Point(2.0, 0.0)), Lift, Lower, Draw(Point(2.0, 0.0)), Lift]

  /** As written, the second MoveTo emits no travel, since `firstMove` was
      cleared by the first: the pen is lowered where the first stroke
      ended, and the second stroke becomes a draw to the point the pen is
      already at, so nothing of it is drawn. */
  lemma SecondContourNotTravelled()
    ensures GlyphPath(ApiRules, Point(0.0, 0.0), 1.0, TwoContours) == TwoContoursAsWritten
    ensures !NoIdleMotion(GlyphPath(ApiRules, Point(0.0, 0.0), 1.0, TwoContours), Point(0.0, 0.0))
  {
    TwoContoursTrace();
    IdleSecondDraw();
  }

  lemma TwoContoursTrace()
    ensures GlyphPath(ApiRules, Point(0.0, 0.0), 1.0, TwoContours) == TwoContoursAsWritten
  {
    var o := Point(0.0, 0.0);
    var c := TwoContours;
    assert c[..1] == [c[0]] && c[..2][..1] == c[..1] && c[..3][..2] == c[..2] && c[..4] == c && c[..4][..3] == c[..3];
    assert Run(ApiRules, o, 1.0, c[..1]) == Pen(false, false, Point(1.0, 0.0), [Travel(Point(1.0, 0.0))]);
    assert Run(ApiRules, o, 1.0, c[..2])
        == Pen(true, false, Point(2.0, 0.0), [Travel(Point(1.0, 0.0)), Lower, Draw(Point(2.0, 0.0))]);
    assert Run(ApiRules, o, 1.0, c[..3])
        == Pen(false, false, Point(3.0, 0.0), [Travel(Point(1.0, 0.0)), Lower, Draw(Point(2.0, 0.0)), Lift]);
  }

  /** The second draw of `TwoContoursAsWritten` goes where the pen already is. */
  lemma IdleSecondDraw()
    ensures !NoIdleMotion(TwoContoursAsWritten, Point(0.0, 0.0))
  {
    var o := Point(0.0, 0.0);
    var q := [Travel(Point(1.0, 0.0)), Lower, Draw(Point(2.0, 0.0))];
    Snoc([Travel(Point(1.0, 0.0)), Lower], Draw(Point(2.0, 0.0)), o);
    assert [Travel(Point(1.0, 0.0)), Lower] + [Draw(Point(2.0, 0.0))] == q;
    Snoc(q, Lift, o);
    Snoc(q + [Lift], Lower, o);
    var out := q + [Lift] + [Lower];
    Snoc(out, Draw(Point(2.0, 0.0)), o);
    Snoc(out + [Draw(Point(2.0, 0.0))], Lift, o);
    assert out + [Draw(Point(2.0, 0.0))] + [Lift] == TwoContoursAsWritten;
  }

  /** With the rule corrected, the second contour starts with a travel to
      its first point, and the stroke back to (2,0) is drawn. */
  lemma SecondContourTravelled()
    ensures GlyphPath(CorrectedApiRules, Point(0.0, 0.0), 1.0, TwoContours)
         == [Travel(Point(1.0, 0.0)), Lower, Draw(Point(2.0, 0.0)), Lift,
             Travel(Point(3.0, 0.0)), Lower, Draw(Point(2.0, 0.0)), Lift]
  {
    var o := Point(0.0, 0.0);
    var c := TwoContours;
    assert c[..1] == [c[0]] && c[..2][..1] == c[..1] && c[..3][..2] == c[..2] && c[..4] == c && c[..4][..3] == c[..3];
    assert Run(CorrectedApiRules, o, 1.0, c[..1]) == Pen(false, true, Point(1.0, 0.0), [Travel(Point(1.0, 0.0))]);
    assert Run(CorrectedApiRules, o, 1.0, c[..2])
        == Pen(true, true, Point(2.0, 0.0), [Travel(Point(1.0, 0.0)), Lower, Draw(Point(2.0, 0.0))]);
    assert Run(CorrectedApiRules, o, 1.0, c[..3])
        == Pen(false, true, Point(3.0, 0.0),
               [Travel(Point(1.0, 0.0)), Lower, Draw(Point(2.0, 0.0)), Lift, Travel(Point(3.0, 0.0))]);
  }

  /** Under the corrected rules no glyph ever draws or travels to the point
      the pen is already at. */
  lemma CorrectedNoIdleMotion(origin: Point, scale: real, cmds: seq<PathCmd>)
    ensures NoIdleMotion(GlyphPath(CorrectedApiRules, origin, scale, cmds), origin)
  {
    GlyphNoIdleMotion(CorrectedApiRules, origin, scale, cmds);
  }

  // ---------------------------------------------------------------------
  // 2. Curve samples blend from the moving current point.

  /** A quadratic from (0,0) through control (5,10) to (10,0); its x is
      10t at parameter t. */
  const Arch := Quad(Point(5.0, 10.0), Point(10.0, 0.0))

  lemma ArchX(t: real)
    ensures CurveAt(Point(0.0, 0.0), Arch, t).x == 10.0 * t
    ensures CurveAt(Point(0.0, 0.0), Arch, t).y == 20.0 * t - 20.0 * t * t
  {
    var u := 1.0 - t;
    assert Quad1(0.0, 5.0, 10.0, t) == 2.0 * u * t * 5.0 + t * t * 10.0;
    assert 2.0 * u * t * 5.0 == 10.0 * t - 10.0 * t * t;
    assert Quad1(0.0, 10.0, 0.0, t) == 2.0 * u * t * 10.0;
  }

  /** As written, the second sample drawn on the arch (t = 2/20) is
      (1.405, 2.5695), blended from the first sample instead of from the
      curve's start; the arch passes through no such point, at any t. */
  lemma LiveBlendLeavesCurve()
    ensures Samples(ApiRules, Pen(true, false, Point(0.0, 0.0), []), Point(0.0, 0.0), Arch, 3).out
         == [Draw(Point(0.5, 0.95)), Draw(Point(1.405, 2.5695))]
    ensures forall t :: CurveAt(Point(0.0, 0.0), Arch, t) != Point(1.405, 2.5695)
  {
    var st := Pen(true, false, Point(0.0, 0.0), []);
    var o := Point(0.0, 0.0);
    assert 0 as real / 20 as real == 0.0;
    assert 1 as real / 20 as real == 0.05;
    assert 2 as real / 20 as real == 0.1;
    assert Samples(ApiRules, st, o, Arch, 1) == st;
    assert CurveAt(o, Arch, 0.05) == Point(0.5, 0.95);
    assert Samples(ApiRules, st, o, Arch, 2) == Pen(true, false, Point(0.5, 0.95), [Draw(Point(0.5, 0.95))]);
    assert CurveAt(Point(0.5, 0.95), Arch, 0.1) == Point(1.405, 2.5695);
    forall t ensures CurveAt(o, Arch, t) != Point(1.405, 2.5695) {
      ArchX(t);
      if CurveAt(o, Arch, t).x == 1.405 {
        assert t == 0.1405;
        assert CurveAt(o, Arch, t).y == 2.415195;
      }
    }
  }

  /** With the start captured before sampling, the second sample is the
      arch's own point at t = 2/20. */
  lemma CapturedBlendOnCurve()
    ensures Samples(CorrectedApiRules, Pen(true, false, Point(0.0, 0.0), []), Point(0.0, 0.0), Arch, 3).out
         == [Draw(Point(0.5, 0.95)), Draw(Point(1.0, 1.8))]
  {
    var st := Pen(true, false, Point(0.0, 0.0), []);
    var o := Point(0.0, 0.0);
    assert 0 as real / 20 as real == 0.0;
    assert 1 as real / 20 as real == 0.05;
    assert 2 as real / 20 as real == 0.1;
    assert Samples(CorrectedApiRules, st, o, Arch, 1) == st;
    assert CurveAt(o, Arch, 0.05) == Point(0.5, 0.95);
    assert CurveAt(o, Arch, 0.1) == Point(1.0, 1.8);
  }

  /** Under the corrected rules every draw of a curve lies on the curve. */
  lemma CorrectedSamplesOnCurve(st: Pen, curve: Curve)
    ensures var s := Samples(CorrectedApiRules, st, st.prev, curve, CorrectedApiRules.samples);
            forall i | |st.out| <= i < |s.out| :: s.out[i].Draw? && s.out[i].to in CurvePoints(st.prev, curve, 20)
  {
    SamplesOnCurve(CorrectedApiRules, st, st.prev, curve, CorrectedApiRules.samples);
  }

  // ---------------------------------------------------------------------
  // 3. The sampling loop stops before t = 1.

  /** A straight quadratic from (0,0), control at its start, to (1,0). */
  const Ramp := Quad(Point(0.0, 0.0), Point(1.0, 0.0))

  /** Whatever the blend starts from, samples on the ramp keep x in [0, 1]. */
  lemma {:induction false} RampSamplesInside(st: Pen, n: nat)
    requires 0.0 <= st.prev.x <= 1.0 && n <= ApiRules.samples
    ensures 0.0 <= Samples(ApiRules, st, st.prev, Ramp, n).prev.x <= 1.0
  {
    if n > 0 {
      var a := Samples(ApiRules, st, st.prev, Ramp, n - 1).prev.x;
      RampSamplesInside(st, n - 1);
      LastSample(ApiRules, st, st.prev, Ramp, n);
      QuadInHull(a, 0.0, 1.0, (n - 1) as real / 20.0);
    }
  }

  /** As written, the loop's 20 passes end at t = 19/20, so after the ramp
      the pen rests at x <= 0.905 instead of the ramp's end x = 1: the rest
      of the curve is never drawn, and the next command starts from there. */
  lemma CurveStopsShort(st: Pen)
    requires st.prev == Point(0.0, 0.0)
    ensures Samples(ApiRules, st, st.prev, Ramp, ApiRules.samples).prev.x <= 0.905
    ensures Samples(ApiRules, st, st.prev, Ramp, ApiRules.samples).prev != Ramp.end
  {
    var a := Samples(ApiRules, st, st.prev, Ramp, 19).prev.x;
    RampSamplesInside(st, 19);
    LastSample(ApiRules, st, st.prev, Ramp, 20);
    assert 19 as real / 20 as real == 0.95;
    assert Quad1(a, 0.0, 1.0, 0.95) == 0.0025 * a + 0.9025;
  }

  /** With the 21st pass, every curve ends at its end point. */
  lemma CorrectedCurveReachesEnd(st: Pen, curve: Curve)
    ensures Samples(CorrectedApiRules, st, st.prev, curve, CorrectedApiRules.samples).prev == curve.end
  {
    CurveReachesEnd(CorrectedApiRules, st, st.prev, curve);
  }

  // ---------------------------------------------------------------------
  // The single-stroke glyph.

  /** An "I" of one stroke from (0,0) to (0,700) font units, placed at
      (1,1) with scale 10/1000: its first point is the glyph origin, so no
      travel is emitted; the pen is lowered, draws to (1,-6) (y inverted:
      1 - 700 * 0.01), and is lifted. */
  lemma SingleStroke()
    ensures GlyphPath(ApiRules, Point(1.0, 1.0), 0.01, [MoveTo(0.0, 0.0), LineTo(0.0, 700.0)])
         == [Lower, Draw(Point(1.0, -6.0)), Lift]
  {
    var c := [MoveTo(0.0, 0.0), LineTo(0.0, 700.0)];
    assert c[..1] == [c[0]] && c[..2] == c && c[..2][..1] == c[..1];
    assert Run(ApiRules, Point(1.0, 1.0), 0.01, c[..1]) == Pen(false, true, Point(1.0, 1.0), []);
  }
}
