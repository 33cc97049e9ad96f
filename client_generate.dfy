/** The in-browser compiler: the same text-to-G-code pipeline as the API
    route, with its own layout constants, pen heights and sequencing
    rules.  Glyph outlines come already placed at the cursor (opentype's
    `getPath(x, y, fontSize)`), which is `Transform` applied to the glyph's
    font-unit outline. */
module ClientGenerate {
  import opened Wrappers
  import opened Text
  import opened Geometry
  import opened GCode
  import opened Sequencer
  import opened Layout


  /** Why no program was produced: the profile is missing or not an object,
      it names neither a font nor a font file, or the font did not load. */
  datatype Failure = InvalidProfile | NoFont | GenerateFailed(path: string)

  /** Compiles `text` with the profile's font.  `profile` is None when the
      argument is missing or not an object; `fonts` holds the font files
      that load, by path. */
  method GenerateGcode(text: string, profile: Option<Profile>, fonts: map<string, Font>)
    returns (r: Result<seq<GCmd>, Failure>)
    ensures profile.None? ==> r == Err(InvalidProfile)
    ensures profile.Some? && profile.value.font == "" && profile.value.fontPath == "" ==> r == Err(NoFont)
    ensures profile.Some? && (profile.value.font != "" || profile.value.fontPath != "") ==>
      var path := FontPath(profile.value.font, profile.value.fontPath);
      r == if path in fonts then Ok(Program(Client, fonts[path], text)) else Err(GenerateFailed(path))
  {
    if profile.None? {
      return Err(InvalidProfile);
    }
    if profile.value.font == "" && profile.value.fontPath == "" {
      return Err(NoFont);
    }
    var path := FontPath(profile.value.font, profile.value.fontPath);
    if path !in fonts {
      return Err(GenerateFailed(path));
    }
    var font := fonts[path];
    var scale := Client.FontSize() / font.unitsPerEm;
    var lines := Retained(text);
    // the commands between the header and the footer
    var body := [];
    var i := 0;
    while i < |lines|
      invariant 0 <= i <= |lines|
      invariant body == TextBody(Client, font, lines[..i])
    {
      var line := Trim(lines[i]);
      TextBodySnoc(Client, font, lines, i);
      if line != [] {
        var out := CompileLine(font, scale, LineY(Client, i), line);
        body := body + out;
      }
      i := i + 1;
    }
    assert lines[..|lines|] == lines;
    return Ok(Header + body + Footer);
  }

  /** The commands of one trimmed line at vertical origin `y`: every
      character gets a glyph (the font's fallback glyph when it maps none),
      which is traced at the cursor; the cursor then moves by 0.3 of the
      scaled advance. */
  method CompileLine(font: Font, scale: real, y: real, line: string) returns (out: seq<GCmd>)
    requires scale == Scale(Client, font)
    ensures out == LineRun(Client, font, y, line).out
  {
    var x := Client.MarginX();
    out := [];
    var j := 0;
    while j < |line|
      invariant 0 <= j <= |line|
      invariant Cursor(x, out) == LineRun(Client, font, y, line[..j])
    {
      LineRunSnoc(Client, font, y, line, j);
      x, out := PlaceGlyph(font, scale, x, y, out, line[j]);
      j := j + 1;
    }
    assert line[..|line|] == line;
  }

  /** One character at cursor (x, y): its glyph is traced there and the
      cursor moves by 0.3 of the scaled advance. */
  method PlaceGlyph(font: Font, scale: real, x: real, y: real, out: seq<GCmd>, c: char)
    returns (x': real, out': seq<GCmd>)
    requires scale == Scale(Client, font)
    ensures Cursor(x', out') == PlaceChar(Client, font, y, Cursor(x, out), c)
  {
    var glyph := if c in font.glyphs then font.glyphs[c] else font.notdef;
    var g := TraceGlyph(Point(x, y), scale, glyph.path);
    out' := out + g;
    x' := x + glyph.advanceWidth * scale * 0.3;
  }

  /** The commands of one glyph at `origin`, under the client rules: every
      MoveTo that changes position travels, curves blend from the point
      captured before sampling, ClosePath is ignored. */
  method TraceGlyph(origin: Point, scale: real, path: seq<PathCmd>) returns (out: seq<GCmd>)
    ensures out == GlyphPath(ClientRules, origin, scale, path)
  {
    var penDown := false;
    var prevX, prevY := origin.x, origin.y;
    out := [];
    var k := 0;
    while k < |path|
      invariant 0 <= k <= |path|
      invariant Pen(penDown, true, Point(prevX, prevY), out) == Run(ClientRules, origin, scale, path[..k])
    {
      var cmd := path[k];
      ghost var st := Pen(penDown, true, Point(prevX, prevY), out);
      if cmd.MoveTo? {
        var p := Transform(origin, scale, cmd.x, cmd.y);
        if penDown {
          out := out + [Lift];
          penDown := false;
        }
        if p.x != prevX || p.y != prevY {
          out := out + [Travel(p)];
          prevX, prevY := p.x, p.y;
        }
      } else if cmd.LineTo? {
        var p := Transform(origin, scale, cmd.x, cmd.y);
        if !penDown {
          out := out + [Lower];
          penDown := true;
        }
        if p.x != prevX || p.y != prevY {
          out := out + [Draw(p)];
          prevX, prevY := p.x, p.y;
        }
      } else if cmd.QuadTo? || cmd.CubicTo? {
        penDown, prevX, prevY, out := FlattenCurve(origin, scale, cmd, Pen(penDown, true, Point(prevX, prevY), out));
      }
      assert Pen(penDown, true, Point(prevX, prevY), out) == Step(ClientRules, origin, scale, st, cmd);
      assert path[..k + 1][..k] == path[..k];
      k := k + 1;
    }
    assert path[..|path|] == path;
    if penDown {
      out := out + [Lift];
    }
  }

  /** Flattens a curve: samples at t = 0, 1/2, 1, each blended from the
      point captured before the loop; the pen is lowered at the first
      sample if it is up, and each sample that moves the pen is drawn. */
  method FlattenCurve(origin: Point, scale: real, cmd: PathCmd, st: Pen)
    returns (penDown: bool, prevX: real, prevY: real, out: seq<GCmd>)
    requires cmd.QuadTo? || cmd.CubicTo?
    ensures st.(down := penDown, prev := Point(prevX, prevY), out := out)
         == Samples(ClientRules, LowerPen(st), st.prev, CurveOf(origin, scale, cmd), ClientRules.samples)
  {
    penDown, prevX, prevY, out := st.down, st.prev.x, st.prev.y, st.out;
    var steps := 2;
    var startX, startY := prevX, prevY;
    var s := 0;
    while s <= steps
      invariant 0 <= s <= steps + 1
      invariant st.(down := penDown, prev := Point(prevX, prevY), out := out)
         == if s == 0 then st else Samples(ClientRules, LowerPen(st), st.prev, CurveOf(origin, scale, cmd), s)
    {
      var t := s as real / steps as real;
      var tx, ty;
      if cmd.QuadTo? {
        var c, e := Transform(origin, scale, cmd.x1, cmd.y1), Transform(origin, scale, cmd.x, cmd.y);
        tx := Quad1(startX, c.x, e.x, t);
        ty := Quad1(startY, c.y, e.y, t);
      } else {
        var c1, c2 := Transform(origin, scale, cmd.x1, cmd.y1), Transform(origin, scale, cmd.x2, cmd.y2);
        var e := Transform(origin, scale, cmd.x, cmd.y);
        tx := Cubic1(startX, c1.x, c2.x, e.x, t);
        ty := Cubic1(startY, c1.y, c2.y, e.y, t);
      }
      assert Point(tx, ty) == CurveAt(st.prev, CurveOf(origin, scale, cmd), t);
      if !penDown {
        out := out + [Lower];
        penDown := true;
      }
      if tx != prevX || ty != prevY {
        out := out + [Draw(Point(tx, ty))];
        prevX, prevY := tx, ty;
      }
      s := s + 1;
    }
  }
}
