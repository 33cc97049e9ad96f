/** Layout and whole-program assembly: fonts as the compiler sees them,
    the layout constants of the two variants, the per-line and per-text
    folds that place each glyph and concatenate its commands, and the
    program = header + body + footer. */
module Layout {
  import opened Wrappers
  import opened Text
  import opened Geometry
  import opened GCode
  import opened Sequencer

  /** A glyph: its advance width in font units and its outline. */
  datatype Glyph = Glyph(advanceWidth: real, path: seq<PathCmd>)

  type PositiveReal = r: real | r > 0.0 witness 1.0

  /** A loaded font: units per em, the glyph each character maps to, and
      the glyph a font falls back to for characters it does not map. */
  datatype Font = Font(unitsPerEm: PositiveReal, glyphs: map<char, Glyph>, notdef: Glyph)

  /** The fields of a style profile the compilers read; an absent field is
      the empty string. */
  datatype Profile = Profile(font: string, fontPath: string)

  /** The font file a profile names: its explicit path, else
      `/fonts/<font>.ttf`. */
  function FontPath(fontName: string, fontPath: string): string {
    if fontPath != "" then fontPath else "/fonts/" + fontName + ".ttf"
  }

  /** The two compilers: the API route and the in-browser client. */
  datatype Variant = Api | Client {

    function MarginX(): real {
      if Api? then 1.665 else -2.351
    }

    function MarginY(): real {
      if Api? then 7.136 else -3.679
    }

    function FontSize(): real {
      if Api? then 8.0 else 4.0
    }

    function LineHeight(): real {
      if Api? then FontSize() * 1.2 else FontSize() + 0.3
    }

    function Rules(): Rules {
      if Api? then ApiRules else ClientRules
    }

    function Machine(): Machine {
      if Api? then ApiMachine else ClientMachine
    }
  }

  /** Font units to output units. */
  function Scale(v: Variant, font: Font): real {
    v.FontSize() / font.unitsPerEm
  }

  /** The glyph a font gives character `c`: the one it maps `c` to, else
      its fallback glyph. */
  function GlyphOf(font: Font, c: char): Glyph {
    if c in font.glyphs then font.glyphs[c] else font.notdef
  }

  /** The glyph drawn for character `c`, or None when it is skipped: the
      API skips a glyph whose outline is empty; the client draws every
      glyph. */
  function GlyphFor(v: Variant, font: Font, c: char): (g: Option<Glyph>)
    ensures g.Some? ==> g.value == GlyphOf(font, c)
    ensures g.None? <==> v == Api && GlyphOf(font, c).path == []
  {
    match v
    case Api => if GlyphOf(font, c).path != [] then Some(GlyphOf(font, c)) else None
    case Client => Some(GlyphOf(font, c))
  }

  /** How far the cursor moves after drawing glyph `g`: the scaled advance
      plus a letter spacing of 0.1 (API), or 0.3 of the scaled advance
      (client).  A glyph of non-negative width never moves the cursor
      back, and under the API always moves it by the letter spacing at
      least. */
  function Advance(v: Variant, font: Font, g: Glyph): (a: real)
    ensures g.advanceWidth >= 0.0 ==> a >= (if v == Api then 0.1 else 0.0)
  {
    match v
    case Api => g.advanceWidth * Scale(v, font) + 0.1
    case Client => g.advanceWidth * Scale(v, font) * 0.3
  }

  /** The horizontal cursor of a line and the commands emitted so far. */
  datatype Cursor = Cursor(x: real, out: seq<GCmd>)

  /** One character of a line at vertical origin `y`. */
  function PlaceChar(v: Variant, font: Font, y: real, cur: Cursor, c: char): Cursor {
    match GlyphFor(v, font, c)
    case None => cur
    case Some(g) =>
      Cursor(cur.x + Advance(v, font, g),
             cur.out + GlyphPath(v.Rules(), Point(cur.x, y), Scale(v, font), g.path))
  }

  /** The cursor after the characters `chars` of a line at vertical origin
      `y`: it sits at the left margin plus the advances of the characters
      drawn so far, a skipped character moving it by nothing. */
  function LineRun(v: Variant, font: Font, y: real, chars: string): (cur: Cursor)
    ensures cur.x == v.MarginX() + AdvanceSum(v, font, chars)
    decreases |chars|
  {
    if chars == [] then Cursor(v.MarginX(), [])
    else
      var init := chars[..|chars| - 1];
      AdvanceSumSnoc(v, font, init, chars[|chars| - 1]);
      assert init + [chars[|chars| - 1]] == chars;
      PlaceChar(v, font, y, LineRun(v, font, y, init), chars[|chars| - 1])
  }

  /** One more character of a line is one more `PlaceChar`. */
  lemma LineRunSnoc(v: Variant, font: Font, y: real, line: string, j: nat)
    requires j < |line|
    ensures LineRun(v, font, y, line[..j + 1])
         == PlaceChar(v, font, y, LineRun(v, font, y, line[..j]), line[j])
  {
    assert line[..j + 1][..j] == line[..j];
  }

  /** The vertical origin of retained line number `i`. */
  function LineY(v: Variant, i: nat): real {
    v.MarginY() + i as real * v.LineHeight()
  }

  /** Line 0 sits on the top margin and consecutive lines are 9.6 (API:
      8 * 1.2) or 4.3 (client: 4 + 0.3) apart. */
  lemma LineSpacing(i: nat)
    ensures LineY(Api, 0) == 7.136 && LineY(Client, 0) == -3.679
    ensures LineY(Api, i + 1) - LineY(Api, i) == 9.6
    ensures LineY(Client, i + 1) - LineY(Client, i) == 4.3
  {
  }

  /** The commands of the retained lines `lines`, line i trimmed and
      placed at `LineY(v, i)`. */
  function TextBody(v: Variant, font: Font, lines: seq<string>): seq<GCmd>
    decreases |lines|
  {
    if lines == [] then []
    else
      var n := |lines| - 1;
      TextBody(v, font, lines[..n]) + LineRun(v, font, LineY(v, n), Trim(lines[n])).out
  }

  lemma TextBodySnoc(v: Variant, font: Font, lines: seq<string>, i: nat)
    requires i < |lines|
    ensures TextBody(v, font, lines[..i + 1])
         == TextBody(v, font, lines[..i]) + LineRun(v, font, LineY(v, i), Trim(lines[i])).out
  {
    assert lines[..i + 1][..i] == lines[..i];
  }

  /** The program body for `text`: blank lines dropped before numbering. */
  function Body(v: Variant, font: Font, text: string): seq<GCmd> {
    TextBody(v, font, Retained(text))
  }

  /** The whole program: the variant's header, printed with its own safe
      height (Z1.0 for the API, Z0.5 for the client); then the body, which
      keeps the pen discipline from pen up to pen up; then the footer,
      which lifts at the same height, homes and ends the program. */
  function Program(v: Variant, font: Font, text: string): (p: seq<GCmd>)
    ensures |p| == |Header| + |Body(v, font, text)| + |Footer|
    ensures p[..|Header|] == Header && p[|p| - |Footer|..] == Footer
    ensures var lift := if v == Api then "G1G90 Z1.0F20000" else "G1G90 Z0.5F20000";
            FixedLines(v.Machine(), p[..|Header|]) == ["G21", "G90", "F20000", lift, lift] &&
            FixedLines(v.Machine(), p[|p| - |Footer|..]) == [lift, "G90 G0 X0 Y0", "M30"]
    ensures p[|Header|..|p| - |Footer|] == Body(v, font, text)
    ensures PenAfter(p[|Header|..|p| - |Footer|], false) == Some(false)
    ensures NoRepeatedDraw(p[|Header|..|p| - |Footer|])
  {
    var p := Header + Body(v, font, text) + Footer;
    assert p[|Header|..|p| - |Footer|] == Body(v, font, text);
    assert p[..|Header|] == Header && p[|p| - |Footer|..] == Footer;
    ApiBoilerplate();
    ClientBoilerplate();
    BodyPenDiscipline(v, font, text);
    p
  }

  // ---------------------------------------------------------------------
  // Pen discipline of the whole body.

  /** A command stream that starts and ends with the pen up, keeps the pen
      discipline in between, never repeats a draw point, and does not end
      with a draw. */
  predicate Clean(s: seq<GCmd>) {
    PenAfter(s, false) == Some(false) && NoRepeatedDraw(s) && (s != [] ==> !s[|s| - 1].Draw?)
  }

  lemma CleanAppend(a: seq<GCmd>, b: seq<GCmd>)
    requires Clean(a) && Clean(b)
    ensures Clean(a + b)
  {
    PenAfterAppend(a, b, false);
    NoRepeatedDrawAppend(a, b);
    if b == [] {
      assert a + b == a;
    } else {
      assert (a + b)[|a + b| - 1] == b[|b| - 1];
    }
  }

  lemma {:induction false} CleanLine(v: Variant, font: Font, y: real, chars: string)
    ensures Clean(LineRun(v, font, y, chars).out)
    decreases |chars|
  {
    if chars != [] {
      var cur := LineRun(v, font, y, chars[..|chars| - 1]);
      CleanLine(v, font, y, chars[..|chars| - 1]);
      match GlyphFor(v, font, chars[|chars| - 1])
      case None =>
      case Some(g) =>
        GlyphPenDiscipline(v.Rules(), Point(cur.x, y), Scale(v, font), g.path);
        CleanAppend(cur.out, GlyphPath(v.Rules(), Point(cur.x, y), Scale(v, font), g.path));
    }
  }

  lemma {:induction false} CleanText(v: Variant, font: Font, lines: seq<string>)
    ensures Clean(TextBody(v, font, lines))
    decreases |lines|
  {
    if lines != [] {
      var n := |lines| - 1;
      CleanText(v, font, lines[..n]);
      CleanLine(v, font, LineY(v, n), Trim(lines[n]));
      CleanAppend(TextBody(v, font, lines[..n]), LineRun(v, font, LineY(v, n), Trim(lines[n])).out);
    }
  }

  /** For either variant and any text: in the body every lift comes while
      the pen is down and every lower while it is up, every draw while it
      is down and every travel while it is up; no draw repeats the point of
      the draw just before it; and the body ends with the pen up. */
  lemma BodyPenDiscipline(v: Variant, font: Font, text: string)
    ensures PenAfter(Body(v, font, text), false) == Some(false)
    ensures NoRepeatedDraw(Body(v, font, text))
  {
    CleanText(v, font, Retained(text));
  }

  // ---------------------------------------------------------------------
  // Horizontal advance.

  /** The total advance of the characters of `chars` that are drawn. */
  function AdvanceSum(v: Variant, font: Font, chars: string): real
    decreases |chars|
  {
    if chars == [] then 0.0
    else
      (match GlyphFor(v, font, chars[0]) case None => 0.0 case Some(g) => Advance(v, font, g))
      + AdvanceSum(v, font, chars[1..])
  }

  lemma {:induction false} AdvanceSumSnoc(v: Variant, font: Font, chars: string, c: char)
    ensures AdvanceSum(v, font, chars + [c])
         == AdvanceSum(v, font, chars)
            + match GlyphFor(v, font, c) case None => 0.0 case Some(g) => Advance(v, font, g)
    decreases |chars|
  {
    if chars != [] {
      assert (chars + [c])[1..] == chars[1..] + [c];
      AdvanceSumSnoc(v, font, chars[1..], c);
    } else {
      assert (chars + [c])[1..] == [];
    }
  }

  /** A skipped character neither draws nor advances. */
  lemma SkippedCharInvisible(font: Font, y: real, chars: string, c: char)
    requires GlyphOf(font, c).path == []
    ensures LineRun(Api, font, y, chars + [c]) == LineRun(Api, font, y, chars)
  {
    assert (chars + [c])[..|chars|] == chars;
  }

  /** Blank lines take no slot: in "A\nB" and "A\n\nB" alike, B is placed
      on retained line 1. */
  lemma BlankLineInvisible(v: Variant, font: Font)
    ensures Body(v, font, "A\n\nB")
         == LineRun(v, font, LineY(v, 0), "A").out + LineRun(v, font, LineY(v, 1), "B").out
  {
    BlankLineTakesNoSlot();
    var ls := ["A", "B"];
    TrimSingle('A');
    TrimSingle('B');
    assert ls[..1] == ["A"] && ls[..1][..0] == [];
    assert TextBody(v, font, ls[..1]) == LineRun(v, font, LineY(v, 0), "A").out;
    assert TextBody(v, font, ls) == TextBody(v, font, ls[..1]) + LineRun(v, font, LineY(v, 1), "B").out;
  }

  lemma TrimSingle(c: char)
    requires !IsSpace(c)
    ensures Trim([c]) == [c]
  {
    assert TrimStart([c]) == [c];
    assert TrimEnd([c]) == [c];
  }
}
