/** String helpers with JavaScript's meaning: `String.prototype.trim`,
    `split` on a literal separator, `join`, and `replace` with a global
    literal pattern.  Strings are sequences of Unicode scalar values. */
module Text {

  /** JavaScript's WhiteSpace and LineTerminator code points, the set
      `trim` strips. */
  predicate IsSpace(c: char) {
    var n := c as int;
    n == 0x09 || n == 0x0A || n == 0x0B || n == 0x0C || n == 0x0D ||
    n == 0x20 || n == 0xA0 || n == 0x1680 || (0x2000 <= n <= 0x200A) ||
    n == 0x2028 || n == 0x2029 || n == 0x202F || n == 0x205F ||
    n == 0x3000 || n == 0xFEFF
  }

  /** A line whose every character is whitespace (the empty line included). */
  predicate Blank(s: string) {
    forall k | 0 <= k < |s| :: IsSpace(s[k])
  }

  /** Drops leading whitespace: the result is the suffix of `s` that starts
      at its first non-space character. */
  function TrimStart(s: string): (r: string)
    ensures |r| <= |s| && r == s[|s| - |r|..]
    ensures forall k | 0 <= k < |s| - |r| :: IsSpace(s[k])
    ensures r != [] ==> !IsSpace(r[0])
  {
    if s != [] && IsSpace(s[0]) then TrimStart(s[1..]) else s
  }

  /** Drops trailing whitespace: the result is the prefix of `s` that ends
      at its last non-space character. */
  function TrimEnd(s: string): (r: string)
    ensures |r| <= |s| && r == s[..|r|]
    ensures forall k | |r| <= k < |s| :: IsSpace(s[k])
    ensures r != [] ==> !IsSpace(r[|r| - 1])
  {
    if s != [] && IsSpace(s[|s| - 1]) then TrimEnd(s[..|s| - 1]) else s
  }

  /** `s.trim()` */
  function Trim(s: string): string {
    TrimEnd(TrimStart(s))
  }

  /** `line.trim().length > 0` holds exactly of the lines that are not blank. */
  lemma TrimEmptyIffBlank(s: string)
    ensures Trim(s) == [] <==> Blank(s)
  {
    var a := TrimStart(s);
    if Trim(s) == [] {
      assert a == [];
    } else {
      var r := Trim(s);
      assert r[0] == a[0] == s[|s| - |a|];
    }
  }

  /** The result of `trim` neither starts nor ends with whitespace, and it
      is a contiguous piece of its input. */
  lemma TrimShape(s: string)
    ensures Trim(s) != [] ==> !IsSpace(Trim(s)[0]) && !IsSpace(Trim(s)[|Trim(s)| - 1])
    ensures |s| - |TrimStart(s)| + |Trim(s)| <= |s|
    ensures Trim(s) == s[|s| - |TrimStart(s)|..|s| - |TrimStart(s)| + |Trim(s)|]
  {
    TrimEnds(s);
    TrimPiece(s);
  }

  lemma TrimEnds(s: string)
    ensures Trim(s) != [] ==> !IsSpace(Trim(s)[0]) && !IsSpace(Trim(s)[|Trim(s)| - 1])
  {
    var a := TrimStart(s);
    var r := TrimEnd(a);
    if r != [] {
      assert r[0] == a[0];
    }
  }

  lemma TrimPiece(s: string)
    ensures |s| - |TrimStart(s)| + |Trim(s)| <= |s|
    ensures Trim(s) == s[|s| - |TrimStart(s)|..|s| - |TrimStart(s)| + |Trim(s)|]
  {
    PrefixOfSuffix(s, TrimStart(s), Trim(s));
  }

  /** A prefix of a suffix is a slice. */
  lemma PrefixOfSuffix(s: string, a: string, r: string)
    requires |a| <= |s| && a == s[|s| - |a|..] && |r| <= |a| && r == a[..|r|]
    ensures r == s[|s| - |a|..|s| - |a| + |r|]
  {
    assert a[..|r|] == s[|s| - |a|..|s| - |a| + |r|];
  }

  /** `p` occurs in `s` starting at index `i`. */
  predicate OccursAt(s: string, p: string, i: int) {
    0 <= i && i + |p| <= |s| && s[i..i + |p|] == p
  }

  /** `p` does not occur anywhere in `s`. */
  predicate Avoids(s: string, p: string) {
    forall i | 0 <= i <= |s| :: !OccursAt(s, p, i)
  }

  /** `s.split(sep)` for a non-empty literal separator: the pieces between
      the leftmost non-overlapping occurrences of `sep`, scanning from the
      left.  There is always at least one piece. */
  function Pieces(s: string, sep: string): (r: seq<string>)
    requires sep != []
    ensures |r| >= 1
    ensures |r[0]| <= |s| && r[0] == s[..|r[0]|]
    decreases |s|
  {
    if |s| < |sep| then [s]
    else if s[..|sep|] == sep then [[]] + Pieces(s[|sep|..], sep)
    else
      var rest := Pieces(s[1..], sep);
      [[s[0]] + rest[0]] + rest[1..]
  }

  /** `parts.join(sep)` */
  function Join(parts: seq<string>, sep: string): string {
    if parts == [] then []
    else if |parts| == 1 then parts[0]
    else parts[0] + sep + Join(parts[1..], sep)
  }

  lemma JoinConsHead(c: string, parts: seq<string>, sep: string)
    requires parts != []
    ensures Join([c + parts[0]] + parts[1..], sep) == c + Join(parts, sep)
  {
    var q := [c + parts[0]] + parts[1..];
    assert q[1..] == parts[1..];
  }

  /** Splitting and joining again with the same separator gives back the
      original string. */
  lemma {:induction false} JoinPieces(s: string, sep: string)
    requires sep != []
    ensures Join(Pieces(s, sep), sep) == s
    decreases |s|
  {
    if |s| < |sep| {
    } else if s[..|sep|] == sep {
      var rest := Pieces(s[|sep|..], sep);
      JoinPieces(s[|sep|..], sep);
      assert ([[]] + rest)[1..] == rest;
      assert s == sep + s[|sep|..];
    } else {
      var rest := Pieces(s[1..], sep);
      JoinPieces(s[1..], sep);
      JoinConsHead([s[0]], rest, sep);
      assert s == [s[0]] + s[1..];
    }
  }

  /** No piece of a split contains the separator. */
  lemma {:induction false} PiecesAvoidSep(s: string, sep: string)
    requires sep != []
    ensures forall k | 0 <= k < |Pieces(s, sep)| :: Avoids(Pieces(s, sep)[k], sep)
    decreases |s|
  {
    var r := Pieces(s, sep);
    if |s| < |sep| {
      forall i | 0 <= i <= |s| ensures !OccursAt(s, sep, i) { }
    } else if s[..|sep|] == sep {
      PiecesAvoidSep(s[|sep|..], sep);
      forall k | 0 <= k < |r| ensures Avoids(r[k], sep) {
        if k > 0 {
          assert r[k] == Pieces(s[|sep|..], sep)[k - 1];
        }
      }
    } else {
      var rest := Pieces(s[1..], sep);
      PiecesAvoidSep(s[1..], sep);
      forall k | 0 <= k < |r| ensures Avoids(r[k], sep) {
        if k > 0 {
          assert r[k] == rest[k];
        } else {
          var h := r[0];
          forall i | 0 <= i <= |h| ensures !OccursAt(h, sep, i) {
            if i == 0 {
              if |sep| <= |h| {
                assert h[..|sep|] == s[..|sep|];
              }
            } else {
              assert Avoids(rest[0], sep);
              assert !OccursAt(rest[0], sep, i - 1);
              if i + |sep| <= |h| {
                assert h[i..i + |sep|] == rest[0][i - 1..i - 1 + |sep|];
              }
            }
          }
        }
      }
    }
  }

  /** A string without the separator is a single piece. */
  lemma {:induction false} PiecesOfAvoiding(s: string, sep: string)
    requires sep != [] && Avoids(s, sep)
    ensures Pieces(s, sep) == [s]
    decreases |s|
  {
    if |s| >= |sep| {
      assert !OccursAt(s, sep, 0);
      forall i | 0 <= i <= |s| - 1 ensures !OccursAt(s[1..], sep, i) {
        assert !OccursAt(s, sep, i + 1);
        if i + |sep| <= |s| - 1 {
          assert s[1..][i..i + |sep|] == s[i + 1..i + 1 + |sep|];
        }
      }
      PiecesOfAvoiding(s[1..], sep);
      assert s == [s[0]] + s[1..];
    }
  }

  /** `s.replace(/p/g, rep)` for a literal pattern `p` and a replacement
      string taken literally. */
  function ReplaceAll(s: string, p: string, rep: string): string
    requires p != []
    decreases |s|
  {
    if |s| < |p| then s
    else if s[..|p|] == p then rep + ReplaceAll(s[|p|..], p, rep)
    else [s[0]] + ReplaceAll(s[1..], p, rep)
  }

  /** Global replacement is splitting on the pattern and joining with the
      replacement. */
  lemma {:induction false} ReplaceAllIsSplitJoin(s: string, p: string, rep: string)
    requires p != []
    ensures ReplaceAll(s, p, rep) == Join(Pieces(s, p), rep)
    decreases |s|
  {
    if |s| < |p| {
    } else if s[..|p|] == p {
      var rest := Pieces(s[|p|..], p);
      ReplaceAllIsSplitJoin(s[|p|..], p, rep);
      assert ([[]] + rest)[1..] == rest;
    } else {
      ReplaceAllIsSplitJoin(s[1..], p, rep);
      JoinConsHead([s[0]], Pieces(s[1..], p), rep);
    }
  }

  /** Replacing a pattern by itself changes nothing, and a text in which the
      pattern does not occur is left as it is. */
  lemma ReplaceAllIdentity(s: string, p: string, rep: string)
    requires p != []
    ensures ReplaceAll(s, p, p) == s
    ensures Avoids(s, p) ==> ReplaceAll(s, p, rep) == s
  {
    ReplaceAllIsSplitJoin(s, p, p);
    JoinPieces(s, p);
    if Avoids(s, p) {
      PiecesOfAvoiding(s, p);
      ReplaceAllIsSplitJoin(s, p, rep);
    }
  }

  /** The lines of `text`: `text.split('\n')`. */
  function Lines(text: string): (r: seq<string>)
    ensures |r| >= 1
  {
    Pieces(text, "\n")
  }

  /** `lines.filter((line) => line.trim().length > 0)`: keeps, in order,
      exactly the lines that are not blank. */
  function NonBlank(lines: seq<string>): (r: seq<string>)
    ensures |r| <= |lines|
    ensures forall k | 0 <= k < |r| :: !Blank(r[k]) && r[k] in lines
    ensures forall k | 0 <= k < |lines| :: !Blank(lines[k]) ==> lines[k] in r
  {
    if lines == [] then []
    else
      var rest := NonBlank(lines[1..]);
      // `trim().length > 0` is `!Blank` (TrimEmptyIffBlank)
      if !Blank(lines[0]) then [lines[0]] + rest else rest
  }

  /** The filter keeps order and multiplicity: filtering a concatenation
      filters each part, and one line is kept exactly when it is not
      blank. */
  lemma {:induction false} NonBlankAppend(a: seq<string>, b: seq<string>, line: string)
    ensures NonBlank(a + b) == NonBlank(a) + NonBlank(b)
    ensures NonBlank([line]) == if Blank(line) then [] else [line]
    decreases |a|
  {
    if a == [] {
      assert a + b == b;
    } else {
      assert (a + b)[1..] == a[1..] + b;
      NonBlankAppend(a[1..], b, line);
    }
  }

  /** The retained lines of a text, the ones that get a line slot. */
  function Retained(text: string): seq<string> {
    NonBlank(Lines(text))
  }

  /** A blank line between two lines takes no slot: the second line is
      line 1, not line 2. */
  lemma BlankLineTakesNoSlot()
    ensures Retained("A\n\nB") == ["A", "B"]
  {
    var nl := "\n";
    assert Pieces("", nl) == [""];
    assert "B"[..1][0] != nl[0];
    assert |"B"[1..]| == 0 && "B"[1..] == "";
    assert "B"[0] == 'B' && ['B'] + "" == "B";
    assert Pieces("B", nl) == ["B"];
    assert "\nB"[..1] == nl && "\nB"[1..] == "B";
    assert Pieces("\nB", nl) == ["", "B"];
    assert "\n\nB"[..1] == nl && "\n\nB"[1..] == "\nB";
    assert Pieces("\n\nB", nl) == ["", "", "B"];
    assert "A\n\nB"[..1][0] != nl[0];
    assert "A\n\nB"[1..] == "\n\nB";
    assert "A\n\nB"[0] == 'A' && ['A'] + "" == "A";
    assert Lines("A\n\nB") == ["A", "", "B"];
    assert !IsSpace("A"[0]) && !IsSpace("B"[0]);
  }
}
