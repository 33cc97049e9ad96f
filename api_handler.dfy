/** The G-code route: validates the request, loads the font, and compiles
    the text line by line, character by character and outline command by
    outline command into one G-code program. */
module ApiHandler {
  import opened Wrappers
  import opened Text
  import opened Geometry
  import opened GCode
  import opened Sequencer
  import opened Layout


  /** A request: its HTTP method, the text, and the profile if any. */
  datatype Request = Request(httpMethod: string, text: string, profile: Option<Profile>)

  datatype Failure = MethodNotAllowed | MissingParameters | FontLoadError(path: string)

  /** The reply: a status code and either the program or why there is none. */
  datatype Reply = Reply(status: nat, result: Result<seq<GCmd>, Failure>)

  /** Text, a profile and a font name are all present. */
  predicate HasParameters(req: Request) {
    req.text != "" && req.profile.Some? && req.profile.value.font != ""
  }

  /** Handles a request.  Font loading is a lookup in `fonts`, the font
      files that load, by path; a path that is not there fails to load. */
  method Handle(req: Request, fonts: map<string, Font>) returns (reply: Reply)
    ensures req.httpMethod != "POST" ==> reply == Reply(405, Err(MethodNotAllowed))
    ensures req.httpMethod == "POST" && !HasParameters(req) ==> reply == Reply(400, Err(MissingParameters))
    ensures req.httpMethod == "POST" && HasParameters(req) ==>
      var path := FontPath(req.profile.value.font, req.profile.value.fontPath);
      reply == if path in fonts then Reply(200, Ok(Program(Api, fonts[path], req.text)))
               else Reply(500, Err(FontLoadError(path)))
  {
    if req.httpMethod != "POST" {
      return Reply(405, Err(MethodNotAllowed));
    }
    if req.text == "" || req.profile.None? || req.profile.value.font == "" {
      return Reply(400, Err(MissingParameters));
    }
    var path := FontPath(req.profile.value.font, req.profile.value.fontPath);
    if path !in fonts {
      return Reply(500, Err(FontLoadError(path)));
    }
    var gcode := CompileText(fonts[path], req.text);
    reply := Reply(200, Ok(gcode));
  }

  /** The program for `text` in `font`: the header, then each line that is
      not blank, trimmed, on its own line slot, then the footer. */
  method CompileText(font: Font, text: string) returns (gcode: seq<GCmd>)
    ensures gcode == Program(Api, font, text)
  {
    var scale := Api.FontSize() / font.unitsPerEm;
    var lines := Retained(text);
    // the commands between the header and the footer
    var body := [];
    var i := 0;
    while i < |lines|
      invariant 0 <= i <= |lines|
      invariant body == TextBody(Api, font, lines[..i])
    {
      var line := Trim(lines[i]);
      TextBodySnoc(Api, font, lines, i);
      if line != [] {
        var out := CompileLine(font, scale, LineY(Api, i), line);
        body := body + out;
      }
      i := i + 1;
    }
    assert lines[..|lines|] == lines;
    gcode := Header + body + Footer;
  }

  /** The commands of one trimmed line at vertical origin `baseY`, the
      cursor starting at the left margin. */
  method CompileLine(font: Font, scale: real, baseY: real, line: string) returns (out: seq<GCmd>)
    requires scale == Scale(Api, font)
    ensures out == LineRun(Api, font, baseY, line).out
  {
    var baseX := Api.MarginX();
    out := [];
    var j := 0;
    while j < |line|
      invariant 0 <= j <= |line|
      invariant Cursor(baseX, out) == LineRun(Api, font, baseY, line[..j])
    {
      LineRunSnoc(Api, font, baseY, line, j);
      baseX, out := PlaceGlyph(font, scale, baseX, baseY, out, line[j]);
      j := j + 1;
    }
    assert line[..|line|] == line;
  }

  /** One character at cursor (baseX, baseY): it gets its glyph (the
      font's fallback glyph when it maps none); a glyph with a non-empty
      outline is traced at the cursor, which then moves by the scaled
      advance plus 0.1, and a glyph with an empty outline is skipped
      without moving the cursor. */
  method PlaceGlyph(font: Font, scale: real, baseX: real, baseY: real, out: seq<GCmd>, c: char)
    returns (x': real, out': seq<GCmd>)
    requires scale == Scale(Api, font)
    ensures Cursor(x', out') == PlaceChar(Api, font, baseY, Cursor(baseX, out), c)
  {
    x', out' := baseX, out;
    var glyph := if c in font.glyphs then font.glyphs[c] else font.notdef;
    if glyph.path != [] {
      var g := TraceGlyph(Point(baseX, baseY), scale, glyph.path);
      out' := out + g;
      x' := baseX + glyph.advanceWidth * scale + 0.1;
    }
  }

  /** The commands of one glyph at `origin`, under the API rules: a MoveTo
      travels only while the glyph has had no travel, curves blend from
      the live current point, ClosePath lifts. */
  method TraceGlyph(origin: Point, scale: real, path: seq<PathCmd>) returns (out: seq<GCmd>)
    ensures out == GlyphPath(ApiRules, origin, scale, path)
  {
    var penDown, firstMove := false, true;
    var prevX, prevY := origin.x, origin.y;
    out := [];
    var k := 0;
    while k < |path|
      invariant 0 <= k <= |path|
      invariant Pen(penDown, firstMove, Point(prevX, prevY), out) == Run(ApiRules, origin, scale, path[..k])
    {
      var cmd := path[k];
      ghost var st := Pen(penDown, firstMove, Point(prevX, prevY), out);
      if cmd.MoveTo? {
        var x := origin.x + cmd.x * scale;
        var y := origin.y - cmd.y * scale;
        if penDown {
          out := out + [Lift];
          penDown := false;
        }
        if firstMove && (x != prevX || y != prevY) {
          out := out + [Travel(Point(x, y))];
          firstMove := false;
        }
        prevX, prevY := x, y;
      } else if cmd.LineTo? {
        var x := origin.x + cmd.x * scale;
        var y := origin.y - cmd.y * scale;
        if !penDown {
          out := out + [Lower];
          penDown := true;
        }
        if x != prevX || y != prevY {
          out := out + [Draw(Point(x, y))];
          prevX, prevY := x, y;
        }
      } else if cmd.QuadTo? || cmd.CubicTo? {
        if !penDown {
          out := out + [Lower];
          penDown := true;
        }
        prevX, prevY, out := FlattenCurve(origin, scale, cmd, Pen(penDown, firstMove, Point(prevX, prevY), out));
      } else {
        if penDown {
          out := out + [Lift];
          penDown := false;
        }
      }
      assert Pen(penDown, firstMove, Point(prevX, prevY), out) == Step(ApiRules, origin, scale, st, cmd);
      assert path[..k + 1][..k] == path[..k];
      k := k + 1;
    }
    assert path[..|path|] == path;
    if penDown {
      out := out + [Lift];
      penDown := false;
    }
  }

  /** Flattens a curve with the pen down: samples at t = s/20 for
      s = 0..19 (the passes the double-valued `t` loop makes), each blended
      from the current point as it stands, and a draw to every sample that
      moves the pen. */
  method FlattenCurve(origin: Point, scale: real, cmd: PathCmd, st: Pen)
    returns (prevX: real, prevY: real, out: seq<GCmd>)
    requires cmd.QuadTo? || cmd.CubicTo?
    requires st.down
    ensures st.(prev := Point(prevX, prevY), out := out)
         == Samples(ApiRules, st, st.prev, CurveOf(origin, scale, cmd), ApiRules.samples)
  {
    prevX, prevY, out := st.prev.x, st.prev.y, st.out;
    var steps := 20;
    var s := 0;
    while s < steps
      invariant 0 <= s <= steps
      invariant st.(prev := Point(prevX, prevY), out := out)
         == Samples(ApiRules, st, st.prev, CurveOf(origin, scale, cmd), s)
    {
      var t := s as real / steps as real;
      var tx, ty;
      if cmd.QuadTo? {
        tx := Quad1(prevX, origin.x + cmd.x1 * scale, origin.x + cmd.x * scale, t);
        ty := Quad1(prevY, origin.y - cmd.y1 * scale, origin.y - cmd.y * scale, t);
      } else {
        tx := Cubic1(prevX, origin.x + cmd.x1 * scale, origin.x + cmd.x2 * scale, origin.x + cmd.x * scale, t);
        ty := Cubic1(prevY, origin.y - cmd.y1 * scale, origin.y - cmd.y2 * scale, origin.y - cmd.y * scale, t);
      }
      assert Point(tx, ty) == CurveAt(Point(prevX, prevY), CurveOf(origin, scale, cmd), t);
      if tx != prevX || ty != prevY {
        out := out + [Draw(Point(tx, ty))];
        prevX, prevY := tx, ty;
      }
      s := s + 1;
    }
  }
}
