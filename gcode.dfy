/** The motion program: abstract G-code commands, the fixed header and
    footer, the text of the lines that carry no coordinates, and the
    predicates that say a command stream drives the pen correctly. */
module GCode {
  import opened Wrappers
  import opened Geometry

  datatype GCmd =
    | Metric            // G21
    | Absolute          // G90
    | FeedRate          // F20000
    | Lift              // G1G90 Z<up>F20000
    | Lower             // G1G90 Z<down>F20000
    | Travel(to: Point) // G0 X..Y..F20000, pen up
    | Draw(to: Point)   // G1 X..Y..F20000, pen down
    | Home              // G90 G0 X0 Y0
    | ProgramEnd        // M30

  /** The pen heights a variant writes into its Z moves. */
  datatype Machine = Machine(upZ: string, downZ: string)

  const ApiMachine := Machine("1.0", "-6.0")
  const ClientMachine := Machine("0.5", "-5.0")

  /** Units, positioning, feed rate, and the safe-height lift issued twice. */
  const Header: seq<GCmd> := [Metric, Absolute, FeedRate, Lift, Lift]

  /** Final lift, return to the machine origin, end of program. */
  const Footer: seq<GCmd> := [Lift, Home, ProgramEnd]

  /** The text of a command that carries no coordinates.  (Travel and
      draw lines print their coordinates with three decimals.) */
  function FixedLine(m: Machine, c: GCmd): string
    requires !c.Travel? && !c.Draw?
  {
    match c
    case Metric => "G21"
    case Absolute => "G90"
    case FeedRate => "F20000"
    case Lift => "G1G90 Z" + m.upZ + "F20000"
    case Lower => "G1G90 Z" + m.downZ + "F20000"
    case Home => "G90 G0 X0 Y0"
    case ProgramEnd => "M30"
  }

  function FixedLines(m: Machine, s: seq<GCmd>): (r: seq<string>)
    requires forall i | 0 <= i < |s| :: !s[i].Travel? && !s[i].Draw?
    ensures |r| == |s|
    ensures forall i | 0 <= i < |s| :: r[i] == FixedLine(m, s[i])
  {
    if s == [] then [] else [FixedLine(m, s[0])] + FixedLines(m, s[1..])
  }

  /** The header and footer text of the API route, line by line. */
  lemma ApiBoilerplate()
    ensures FixedLines(ApiMachine, Header)
         == ["G21", "G90", "F20000", "G1G90 Z1.0F20000", "G1G90 Z1.0F20000"]
    ensures FixedLines(ApiMachine, Footer) == ["G1G90 Z1.0F20000", "G90 G0 X0 Y0", "M30"]
  {
    assert FixedLine(ApiMachine, Lift) == "G1G90 Z1.0F20000";
    var a := FixedLines(ApiMachine, Header);
    assert a == [a[0], a[1], a[2], a[3], a[4]];
    var c := FixedLines(ApiMachine, Footer);
    assert c == [c[0], c[1], c[2]];
  }

  /** The header and footer text of the client, line by line. */
  lemma ClientBoilerplate()
    ensures FixedLines(ClientMachine, Header)
         == ["G21", "G90", "F20000", "G1G90 Z0.5F20000", "G1G90 Z0.5F20000"]
    ensures FixedLines(ClientMachine, Footer) == ["G1G90 Z0.5F20000", "G90 G0 X0 Y0", "M30"]
  {
    assert FixedLine(ClientMachine, Lift) == "G1G90 Z0.5F20000";
    var b := FixedLines(ClientMachine, Header);
    assert b == [b[0], b[1], b[2], b[3], b[4]];
    var d := FixedLines(ClientMachine, Footer);
    assert d == [d[0], d[1], d[2]];
  }

  /** The pen state after one command, or None when the command is out of
      place: a lift only while down, a lower only while up, a draw only
      while down, a travel only while up, and nothing else in a body. */
  function PenNext(down: bool, c: GCmd): Option<bool> {
    match c
    case Lift => if down then Some(false) else None
    case Lower => if down then None else Some(true)
    case Draw(_) => if down then Some(true) else None
    case Travel(_) => if down then None else Some(false)
    case _ => None
  }

  /** The pen state after a command stream that starts with the pen in
      state `down`, or None when some command is out of place. */
  function PenAfter(s: seq<GCmd>, down: bool): Option<bool>
    decreases |s|
  {
    if s == [] then Some(down)
    else match PenAfter(s[..|s| - 1], down)
      case None => None
      case Some(d) => PenNext(d, s[|s| - 1])
  }

  lemma PenAfterSnoc(s: seq<GCmd>, c: GCmd, down: bool)
    ensures PenAfter(s + [c], down)
         == match PenAfter(s, down) case None => None case Some(d) => PenNext(d, c)
  {
    assert (s + [c])[..|s|] == s;
  }

  /** Pen states compose over concatenation. */
  lemma {:induction false} PenAfterAppend(a: seq<GCmd>, b: seq<GCmd>, down: bool)
    ensures PenAfter(a + b, down)
         == match PenAfter(a, down) case None => None case Some(d) => PenAfter(b, d)
    decreases |b|
  {
    if b == [] {
      assert a + b == a;
    } else {
      var b' := b[..|b| - 1];
      var c := b[|b| - 1];
      assert a + b == (a + b') + [c];
      assert b == b' + [c];
      PenAfterAppend(a, b', down);
      PenAfterSnoc(a + b', c, down);
      match PenAfter(a, down)
      case None =>
      case Some(d) => PenAfterSnoc(b', c, d);
    }
  }

  /** No two adjacent draw commands go to the same point. */
  predicate NoRepeatedDraw(s: seq<GCmd>) {
    forall i | 0 <= i < |s| - 1 :: s[i].Draw? ==> s[i + 1] != s[i]
  }

  /** Gluing two streams keeps draws distinct when the first does not end
      with a draw. */
  lemma NoRepeatedDrawAppend(a: seq<GCmd>, b: seq<GCmd>)
    requires NoRepeatedDraw(a) && NoRepeatedDraw(b)
    requires a != [] ==> !a[|a| - 1].Draw?
    ensures NoRepeatedDraw(a + b)
  {
    var s := a + b;
    forall i | 0 <= i < |s| - 1 && s[i].Draw? ensures s[i + 1] != s[i] {
      if i >= |a| {
        assert s[i] == b[i - |a|] && s[i + 1] == b[i + 1 - |a|];
      } else if i < |a| - 1 {
        assert s[i] == a[i] && s[i + 1] == a[i + 1];
      }
    }
  }

  /** Where the pen is after `s`: the target of the last travel or draw,
      or `start` when `s` moves nowhere. */
  function Pos(s: seq<GCmd>, start: Point): Point
    decreases |s|
  {
    if s == [] then start
    else if s[|s| - 1].Travel? || s[|s| - 1].Draw? then s[|s| - 1].to
    else Pos(s[..|s| - 1], start)
  }

  /** Every travel and draw in `s` goes somewhere other than where the pen
      already is, starting from `start`. */
  predicate NoIdleMotion(s: seq<GCmd>, start: Point)
    decreases |s|
  {
    s == [] ||
    (NoIdleMotion(s[..|s| - 1], start) &&
     ((s[|s| - 1].Travel? || s[|s| - 1].Draw?) ==> s[|s| - 1].to != Pos(s[..|s| - 1], start)))
  }

  /** The number of travel commands in `s`. */
  function Travels(s: seq<GCmd>): nat
    decreases |s|
  {
    if s == [] then 0
    else Travels(s[..|s| - 1]) + (if s[|s| - 1].Travel? then 1 else 0)
  }

  /** What appending one command does to each of the measures above. */
  lemma Snoc(s: seq<GCmd>, c: GCmd, start: Point)
    ensures Pos(s + [c], start) == if c.Travel? || c.Draw? then c.to else Pos(s, start)
    ensures NoIdleMotion(s + [c], start)
        == (NoIdleMotion(s, start) && ((c.Travel? || c.Draw?) ==> c.to != Pos(s, start)))
    ensures Travels(s + [c]) == Travels(s) + if c.Travel? then 1 else 0
  {
    assert (s + [c])[..|s|] == s;
  }
}
