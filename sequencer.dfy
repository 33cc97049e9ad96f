/** The per-glyph toolpath sequencer: a two-state pen machine (up/down)
    that walks a glyph's outline commands and emits lifts, lowers, travels
    and draws, flattening curves by sampling their blend.  The two
    variants of the compiler run the same machine with different rules. */
module Sequencer {
  import opened Wrappers
  import opened Geometry
  import opened GCode

  /** An outline command in font units, relative to the glyph origin. */
  datatype PathCmd =
    | MoveTo(x: real, y: real)
    | LineTo(x: real, y: real)
    | QuadTo(x1: real, y1: real, x: real, y: real)
    | CubicTo(x1: real, y1: real, x2: real, y2: real, x: real, y: real)
    | ClosePath

  type Steps = n: nat | n >= 1 witness 1

  /** Where the two variants differ.
      - travelOnFirstMoveOnly: a MoveTo travels only while no travel has been
        emitted for the glyph yet (API); otherwise every MoveTo that changes
        position travels (client).
      - liveCurveStart: each curve sample blends from the current point,
        which moves as samples are drawn (API); otherwise from the point
        captured before sampling (client).
      - liftOnClose: ClosePath lifts the pen (API); otherwise it is ignored.
      - steps: curve sample k is taken at t = k/steps.
      - samples: how many samples a curve gets, k = 0..samples-1: the number
        of passes of `for (t = 0; t <= 1; t += 1 / steps)` in double
        arithmetic.  For steps = 20 the accumulated t is 0.9500000000000003
        after 19 additions and just above 1 after 20, so the loop runs 20
        times and never reaches t = 1; for steps = 2 it runs 3 times, at
        0, 0.5 and 1 exactly. */
  datatype Rules = Rules(travelOnFirstMoveOnly: bool, liveCurveStart: bool, liftOnClose: bool,
                         steps: Steps, samples: nat)

  const ApiRules := Rules(true, true, true, 20, 20)
  const ClientRules := Rules(false, false, false, 2, 3)

  /** The sequencer's state inside one glyph: pen down, no travel emitted
      yet (`firstMove`), the current point (`prevX`, `prevY`), and the
      commands emitted for the glyph so far. */
  datatype Pen = Pen(down: bool, firstMove: bool, prev: Point, out: seq<GCmd>)

  /** The state at the start of a glyph: pen up, current point the origin. */
  function Enter(origin: Point): Pen {
    Pen(false, true, origin, [])
  }

  function LowerPen(st: Pen): Pen {
    if st.down then st else st.(down := true, out := st.out + [Lower])
  }

  function LiftPen(st: Pen): Pen {
    if st.down then st.(down := false, out := st.out + [Lift]) else st
  }

  /** Draws to `p` unless the pen is already there. */
  function DrawTo(st: Pen, p: Point): Pen {
    if p != st.prev then st.(prev := p, out := st.out + [Draw(p)]) else st
  }

  /** A MoveTo after the pen has been lifted. */
  function MovePen(r: Rules, st: Pen, p: Point): Pen {
    if r.travelOnFirstMoveOnly then
      var st' := if st.firstMove && p != st.prev
                 then st.(firstMove := false, out := st.out + [Travel(p)]) else st;
      st'.(prev := p)
    else if p != st.prev then st.(prev := p, out := st.out + [Travel(p)])
    else st
  }

  /** Curve sample number k, at t = k/steps. */
  function SampleAt(r: Rules, st: Pen, start: Point, curve: Curve, k: nat): Pen {
    var from := if r.liveCurveStart then st.prev else start;
    DrawTo(st, CurveAt(from, curve, k as real / r.steps as real))
  }

  /** Curve samples 0 .. n-1: they only append draws, and leave the pen
      and `firstMove` as they are. */
  function Samples(r: Rules, st: Pen, start: Point, curve: Curve, n: nat): (s: Pen)
    ensures |st.out| <= |s.out| && s.out[..|st.out|] == st.out
    ensures s.down == st.down && s.firstMove == st.firstMove
    decreases n
  {
    if n == 0 then st else SampleAt(r, Samples(r, st, start, curve, n - 1), start, curve, n - 1)
  }

  /** The curve of a QuadTo or CubicTo, its points placed by `Transform`. */
  function CurveOf(origin: Point, scale: real, c: PathCmd): Curve
    requires c.QuadTo? || c.CubicTo?
  {
    if c.QuadTo?
    then Quad(Transform(origin, scale, c.x1, c.y1), Transform(origin, scale, c.x, c.y))
    else Cubic(Transform(origin, scale, c.x1, c.y1), Transform(origin, scale, c.x2, c.y2),
               Transform(origin, scale, c.x, c.y))
  }

  /** One outline command, its coordinates placed by `Transform`: commands
      are only ever appended; a MoveTo leaves the pen up and a LineTo or a
      curve leaves it down; ClosePath lifts under `liftOnClose` and is
      otherwise ignored; after a MoveTo or LineTo the current point is its
      target; and once a travel has cleared `firstMove` it stays cleared. */
  function Step(r: Rules, origin: Point, scale: real, st: Pen, c: PathCmd): (n: Pen)
    ensures |st.out| <= |n.out| && n.out[..|st.out|] == st.out
    ensures n.firstMove ==> st.firstMove
    ensures c.MoveTo? ==> !n.down && n.prev == Transform(origin, scale, c.x, c.y)
    ensures c.LineTo? ==> n.down && n.prev == Transform(origin, scale, c.x, c.y)
    ensures c.QuadTo? || c.CubicTo? ==> n.down
    ensures c.ClosePath? ==> n.down == (st.down && !r.liftOnClose) && n.prev == st.prev
  {
    match c
    case MoveTo(x, y) => MovePen(r, LiftPen(st), Transform(origin, scale, x, y))
    case LineTo(x, y) => DrawTo(LowerPen(st), Transform(origin, scale, x, y))
    case QuadTo(_, _, _, _) => Samples(r, LowerPen(st), st.prev, CurveOf(origin, scale, c), r.samples)
    case CubicTo(_, _, _, _, _, _) => Samples(r, LowerPen(st), st.prev, CurveOf(origin, scale, c), r.samples)
    case ClosePath => if r.liftOnClose then LiftPen(st) else st
  }

  /** The state after the commands of `cmds`, from the glyph's entry state. */
  function Run(r: Rules, origin: Point, scale: real, cmds: seq<PathCmd>): Pen
    decreases |cmds|
  {
    if cmds == [] then Enter(origin)
    else Step(r, origin, scale, Run(r, origin, scale, cmds[..|cmds| - 1]), cmds[|cmds| - 1])
  }

  /** The commands emitted for one glyph: its outline, then a lift if the
      pen is still down.  An empty outline emits nothing, so drawing a
      glyph with no outline and skipping it differ only in the advance. */
  function GlyphPath(r: Rules, origin: Point, scale: real, cmds: seq<PathCmd>): (g: seq<GCmd>)
    ensures cmds == [] ==> g == []
  {
    LiftPen(Run(r, origin, scale, cmds)).out
  }

  // ---------------------------------------------------------------------
  // The pen discipline: lifts and lowers alternate, draws happen only with
  // the pen down, travels only with it up, no draw repeats the previous
  // draw's point, and the last draw is at the current point.

  predicate Sound(st: Pen) {
    PenAfter(st.out, false) == Some(st.down) &&
    NoRepeatedDraw(st.out) &&
    (st.out != [] && st.out[|st.out| - 1].Draw? ==> st.down && st.out[|st.out| - 1].to == st.prev)
  }

  /** Appending one command that is in place keeps a state sound. */
  lemma SoundSnoc(st: Pen, c: GCmd, st': Pen)
    requires Sound(st)
    requires st'.out == st.out + [c]
    requires PenNext(st.down, c) == Some(st'.down)
    requires c.Draw? ==> c.to != st.prev && c.to == st'.prev
    ensures Sound(st')
  {
    PenAfterSnoc(st.out, c, false);
    var s := st'.out;
    forall i | 0 <= i < |s| - 1 && s[i].Draw? ensures s[i + 1] != s[i] {
      if i < |st.out| - 1 {
        assert s[i] == st.out[i] && s[i + 1] == st.out[i + 1];
      }
    }
  }

  lemma SoundLower(st: Pen)
    requires Sound(st)
    ensures Sound(LowerPen(st)) && LowerPen(st).down && LowerPen(st).prev == st.prev
    ensures LowerPen(st).firstMove == st.firstMove
  {
    if !st.down {
      SoundSnoc(st, Lower, LowerPen(st));
    }
  }

  lemma SoundLift(st: Pen)
    requires Sound(st)
    ensures Sound(LiftPen(st)) && !LiftPen(st).down && LiftPen(st).prev == st.prev
    ensures LiftPen(st).firstMove == st.firstMove
  {
    if st.down {
      SoundSnoc(st, Lift, LiftPen(st));
    }
  }

  lemma SoundDraw(st: Pen, p: Point)
    requires Sound(st) && st.down
    ensures Sound(DrawTo(st, p)) && DrawTo(st, p).down && DrawTo(st, p).prev == p
  {
    if p != st.prev {
      SoundSnoc(st, Draw(p), DrawTo(st, p));
    }
  }

  lemma SoundMove(r: Rules, st: Pen, p: Point)
    requires Sound(st) && !st.down
    ensures Sound(MovePen(r, st, p)) && !MovePen(r, st, p).down && MovePen(r, st, p).prev == p
  {
    var t := Travel(p);
    if r.travelOnFirstMoveOnly {
      if st.firstMove && p != st.prev {
        var st' := st.(firstMove := false, out := st.out + [t]);
        SoundSnoc(st, t, st');
      }
    } else if p != st.prev {
      SoundSnoc(st, t, MovePen(r, st, p));
    }
  }

  lemma {:induction false} SoundSamples(r: Rules, st: Pen, start: Point, curve: Curve, n: nat)
    requires Sound(st) && st.down
    ensures Sound(Samples(r, st, start, curve, n)) && Samples(r, st, start, curve, n).down
    decreases n
  {
    if n > 0 {
      var s := Samples(r, st, start, curve, n - 1);
      SoundSamples(r, st, start, curve, n - 1);
      var from := if r.liveCurveStart then s.prev else start;
      SoundDraw(s, CurveAt(from, curve, (n - 1) as real / r.steps as real));
    }
  }

  lemma SoundStep(r: Rules, origin: Point, scale: real, st: Pen, c: PathCmd)
    requires Sound(st)
    ensures Sound(Step(r, origin, scale, st, c))
  {
    match c
    case MoveTo(x, y) =>
      SoundLift(st);
      SoundMove(r, LiftPen(st), Transform(origin, scale, x, y));
    case LineTo(x, y) =>
      SoundLower(st);
      SoundDraw(LowerPen(st), Transform(origin, scale, x, y));
    case QuadTo(_, _, _, _) =>
      SoundLower(st);
      SoundSamples(r, LowerPen(st), st.prev, CurveOf(origin, scale, c), r.samples);
    case CubicTo(_, _, _, _, _, _) =>
      SoundLower(st);
      SoundSamples(r, LowerPen(st), st.prev, CurveOf(origin, scale, c), r.samples);
    case ClosePath =>
      SoundLift(st);
  }

  lemma {:induction false} SoundRun(r: Rules, origin: Point, scale: real, cmds: seq<PathCmd>)
    ensures Sound(Run(r, origin, scale, cmds))
    decreases |cmds|
  {
    if cmds != [] {
      SoundRun(r, origin, scale, cmds[..|cmds| - 1]);
      SoundStep(r, origin, scale, Run(r, origin, scale, cmds[..|cmds| - 1]), cmds[|cmds| - 1]);
    }
  }

  /** Within a glyph (both variants): every lift comes while the pen is
      down and every lower while it is up, so they alternate; every draw
      comes while the pen is down and every travel while it is up; no draw
      repeats the point of the draw before it; and the glyph ends with the
      pen up, its last command not a draw. */
  lemma GlyphPenDiscipline(r: Rules, origin: Point, scale: real, cmds: seq<PathCmd>)
    ensures PenAfter(GlyphPath(r, origin, scale, cmds), false) == Some(false)
    ensures NoRepeatedDraw(GlyphPath(r, origin, scale, cmds))
    ensures GlyphPath(r, origin, scale, cmds) != [] ==>
              !GlyphPath(r, origin, scale, cmds)[|GlyphPath(r, origin, scale, cmds)| - 1].Draw?
  {
    SoundRun(r, origin, scale, cmds);
    SoundLift(Run(r, origin, scale, cmds));
  }

  // ---------------------------------------------------------------------
  // Position tracking: the current point is where the emitted commands
  // have put the pen, so nothing is emitted towards the point the pen is
  // already at.  Holds when every MoveTo that changes position travels.

  predicate Tracked(st: Pen, origin: Point) {
    NoIdleMotion(st.out, origin) && Pos(st.out, origin) == st.prev
  }

  lemma TrackedLower(st: Pen, origin: Point)
    requires Tracked(st, origin)
    ensures Tracked(LowerPen(st), origin)
  {
    Snoc(st.out, Lower, origin);
  }

  lemma TrackedLift(st: Pen, origin: Point)
    requires Tracked(st, origin)
    ensures Tracked(LiftPen(st), origin)
  {
    Snoc(st.out, Lift, origin);
  }

  lemma TrackedDraw(st: Pen, origin: Point, p: Point)
    requires Tracked(st, origin)
    ensures Tracked(DrawTo(st, p), origin)
  {
    Snoc(st.out, Draw(p), origin);
  }

  lemma TrackedMove(r: Rules, st: Pen, origin: Point, p: Point)
    requires Tracked(st, origin) && !r.travelOnFirstMoveOnly
    ensures Tracked(MovePen(r, st, p), origin)
  {
    Snoc(st.out, Travel(p), origin);
  }

  lemma {:induction false} TrackedSamples(r: Rules, st: Pen, origin: Point, start: Point, curve: Curve, n: nat)
    requires Tracked(st, origin)
    ensures Tracked(Samples(r, st, start, curve, n), origin)
    decreases n
  {
    if n > 0 {
      var s := Samples(r, st, start, curve, n - 1);
      TrackedSamples(r, st, origin, start, curve, n - 1);
      var from := if r.liveCurveStart then s.prev else start;
      TrackedDraw(s, origin, CurveAt(from, curve, (n - 1) as real / r.steps as real));
    }
  }

  lemma TrackedCurve(r: Rules, st: Pen, origin: Point, curve: Curve)
    requires Tracked(st, origin)
    ensures Tracked(Samples(r, LowerPen(st), st.prev, curve, r.samples), origin)
  {
    TrackedLower(st, origin);
    TrackedSamples(r, LowerPen(st), origin, st.prev, curve, r.samples);
  }

  lemma TrackedStep(r: Rules, origin: Point, scale: real, st: Pen, c: PathCmd)
    requires Tracked(st, origin) && !r.travelOnFirstMoveOnly
    ensures Tracked(Step(r, origin, scale, st, c), origin)
  {
    match c
    case MoveTo(x, y) =>
      TrackedLift(st, origin);
      TrackedMove(r, LiftPen(st), origin, Transform(origin, scale, x, y));
    case LineTo(x, y) =>
      TrackedLower(st, origin);
      TrackedDraw(LowerPen(st), origin, Transform(origin, scale, x, y));
    case QuadTo(_, _, _, _) =>
      TrackedCurve(r, st, origin, CurveOf(origin, scale, c));
    case CubicTo(_, _, _, _, _, _) =>
      TrackedCurve(r, st, origin, CurveOf(origin, scale, c));
    case ClosePath =>
      TrackedLift(st, origin);
  }

  lemma {:induction false} TrackedRun(r: Rules, origin: Point, scale: real, cmds: seq<PathCmd>)
    requires !r.travelOnFirstMoveOnly
    ensures Tracked(Run(r, origin, scale, cmds), origin)
    decreases |cmds|
  {
    if cmds != [] {
      TrackedRun(r, origin, scale, cmds[..|cmds| - 1]);
      TrackedStep(r, origin, scale, Run(r, origin, scale, cmds[..|cmds| - 1]), cmds[|cmds| - 1]);
    }
  }

  /** With a travel on every MoveTo that changes position (the client
      rules), no travel or draw of a glyph goes to the point the pen is
      already at, counting from the glyph origin. */
  lemma GlyphNoIdleMotion(r: Rules, origin: Point, scale: real, cmds: seq<PathCmd>)
    requires !r.travelOnFirstMoveOnly
    ensures NoIdleMotion(GlyphPath(r, origin, scale, cmds), origin)
  {
    TrackedRun(r, origin, scale, cmds);
    TrackedLift(Run(r, origin, scale, cmds), origin);
  }

  // ---------------------------------------------------------------------
  // The API rules emit at most one travel per glyph.

  predicate TravelCounted(st: Pen) {
    Travels(st.out) == if st.firstMove then 0 else 1
  }

  lemma CountedLower(st: Pen, origin: Point)
    requires TravelCounted(st)
    ensures TravelCounted(LowerPen(st))
  {
    Snoc(st.out, Lower, origin);
  }

  lemma CountedLift(st: Pen, origin: Point)
    requires TravelCounted(st)
    ensures TravelCounted(LiftPen(st))
  {
    Snoc(st.out, Lift, origin);
  }

  lemma CountedDraw(st: Pen, origin: Point, p: Point)
    requires TravelCounted(st)
    ensures TravelCounted(DrawTo(st, p))
  {
    Snoc(st.out, Draw(p), origin);
  }

  /** Under the API rules a MoveTo travels only while `firstMove` holds,
      and clears it when it does. */
  lemma CountedMove(r: Rules, st: Pen, origin: Point, p: Point)
    requires TravelCounted(st) && r.travelOnFirstMoveOnly
    ensures TravelCounted(MovePen(r, st, p))
  {
    Snoc(st.out, Travel(p), origin);
  }

  lemma {:induction false} CountedSamples(r: Rules, st: Pen, origin: Point, start: Point, curve: Curve, n: nat)
    requires TravelCounted(st)
    ensures TravelCounted(Samples(r, st, start, curve, n))
    decreases n
  {
    if n > 0 {
      var s := Samples(r, st, start, curve, n - 1);
      CountedSamples(r, st, origin, start, curve, n - 1);
      var from := if r.liveCurveStart then s.prev else start;
      CountedDraw(s, origin, CurveAt(from, curve, (n - 1) as real / r.steps as real));
    }
  }

  lemma CountedStep(r: Rules, origin: Point, scale: real, st: Pen, c: PathCmd)
    requires TravelCounted(st) && r.travelOnFirstMoveOnly
    ensures TravelCounted(Step(r, origin, scale, st, c))
  {
    match c
    case MoveTo(x, y) =>
      CountedLift(st, origin);
      CountedMove(r, LiftPen(st), origin, Transform(origin, scale, x, y));
    case LineTo(x, y) =>
      CountedLower(st, origin);
      CountedDraw(LowerPen(st), origin, Transform(origin, scale, x, y));
    case QuadTo(_, _, _, _) =>
      CountedLower(st, origin);
      CountedSamples(r, LowerPen(st), origin, st.prev, CurveOf(origin, scale, c), r.samples);
    case CubicTo(_, _, _, _, _, _) =>
      CountedLower(st, origin);
      CountedSamples(r, LowerPen(st), origin, st.prev, CurveOf(origin, scale, c), r.samples);
    case ClosePath =>
      CountedLift(st, origin);
  }

  lemma {:induction false} CountedRun(r: Rules, origin: Point, scale: real, cmds: seq<PathCmd>)
    requires r.travelOnFirstMoveOnly
    ensures TravelCounted(Run(r, origin, scale, cmds))
    decreases |cmds|
  {
    if cmds != [] {
      CountedRun(r, origin, scale, cmds[..|cmds| - 1]);
      CountedStep(r, origin, scale, Run(r, origin, scale, cmds[..|cmds| - 1]), cmds[|cmds| - 1]);
    }
  }

  /** The API rules emit at most one travel per glyph. */
  lemma GlyphAtMostOneTravel(r: Rules, origin: Point, scale: real, cmds: seq<PathCmd>)
    requires r.travelOnFirstMoveOnly
    ensures Travels(GlyphPath(r, origin, scale, cmds)) <= 1
  {
    var st := Run(r, origin, scale, cmds);
    CountedRun(r, origin, scale, cmds);
    Snoc(st.out, Lift, origin);
  }

  // ---------------------------------------------------------------------
  // Curve flattening.

  /** The points of `curve` at t = k/steps for k = 0..steps, from `start`. */
  function CurvePoints(start: Point, curve: Curve, steps: Steps): (pts: seq<Point>)
    ensures |pts| == steps + 1 && pts[0] == start && pts[steps] == curve.end
  {
    var pts := seq(steps + 1, k => CurveAt(start, curve, k as real / steps as real));
    assert pts[steps] == CurveAt(start, curve, 1.0) by {
      assert steps as real / steps as real == 1.0;
    }
    assert pts[0] == CurveAt(start, curve, 0.0);
    pts
  }

  /** The t = 0 sample is the current point, so it is never drawn. */
  lemma FirstSampleIdle(r: Rules, st: Pen, curve: Curve)
    ensures Samples(r, st, st.prev, curve, 1) == st
  {
    assert 0 as real / r.steps as real == 0.0;
  }

  /** After one or more samples the current point is the last sample,
      blended from the current point before it (live start) or from the
      captured start. */
  lemma LastSample(r: Rules, st: Pen, start: Point, curve: Curve, n: nat)
    requires n > 0
    ensures Samples(r, st, start, curve, n).prev
         == CurveAt(if r.liveCurveStart then Samples(r, st, start, curve, n - 1).prev else start,
                    curve, (n - 1) as real / r.steps as real)
  {
  }

  /** When the sampling loop's last pass is at t = 1 (as with the client
      rules), the current point after a curve is the curve's end point,
      whatever the samples blend from. */
  lemma CurveReachesEnd(r: Rules, st: Pen, start: Point, curve: Curve)
    requires r.samples == r.steps + 1
    ensures Samples(r, st, start, curve, r.samples).prev == curve.end
  {
    LastSample(r, st, start, curve, r.samples);
    assert (r.samples - 1) as real / r.steps as real == 1.0;
  }

  /** Sampling from a start point captured before the loop (the client
      rules) only appends draws, and every one of them is at a point of the
      Bezier curve at some t = k/steps. */
  lemma {:induction false} SamplesOnCurve(r: Rules, st: Pen, start: Point, curve: Curve, n: nat)
    requires !r.liveCurveStart && n <= r.steps + 1
    ensures |st.out| <= |Samples(r, st, start, curve, n).out|
    ensures Samples(r, st, start, curve, n).out[..|st.out|] == st.out
    ensures Samples(r, st, start, curve, n).down == st.down
    ensures forall i | |st.out| <= i < |Samples(r, st, start, curve, n).out| ::
              Samples(r, st, start, curve, n).out[i].Draw? &&
              Samples(r, st, start, curve, n).out[i].to in CurvePoints(start, curve, r.steps)
    decreases n
  {
    if n > 0 {
      var s := Samples(r, st, start, curve, n - 1);
      SamplesOnCurve(r, st, start, curve, n - 1);
      var pts := CurvePoints(start, curve, r.steps);
      var q := CurveAt(start, curve, (n - 1) as real / r.steps as real);
      assert q == pts[n - 1];
      var s' := Samples(r, st, start, curve, n);
      if q != s.prev {
        assert s'.out == s.out + [Draw(q)];
        forall i | |st.out| <= i < |s'.out| ensures s'.out[i].Draw? && s'.out[i].to in pts {
          if i < |s.out| {
            assert s'.out[i] == s.out[i];
          }
        }
      }
    }
  }
}
