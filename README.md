# Pen-plotter G-code compiler — a Dafny model

The pen-plotter app turns a letter text into a G-code program for a pen
plotter. Two copies of the compiler exist:

- the `/api/generate-gcode` route (`app/api/generate-gcode.js`);
- `generateGcode` inside the browser client (`app/components/PenPlotterApp.jsx`).

Both compile the same way:

1. Split the text into lines and drop the blank ones.
2. Trim each line and give it a vertical origin.
3. Walk its characters with a horizontal cursor.
4. For each glyph, walk its outline commands (MoveTo, LineTo, QuadTo,
   CubicTo, ClosePath) through a two-state pen machine. The machine emits
   lifts, lowers, pen-up travels and pen-down draws, and flattens curves
   by sampling their Bézier blend.
5. Wrap the result in a fixed header and footer.

The client also keeps a registry of letter formats. It fills a format's
`{field}` placeholders from the user's profile, and it checks the
required fields before running a job.

The model has these modules:

- `Text`: JavaScript's `trim`, `split`, `join` and global literal
  `replace`. It also holds the blank-line filter.
- `Geometry`: points, the font-unit to output transform, and the quadratic
  and cubic blends.
- `GCode`: the abstract command set, the header and footer, and the
  predicates that a well-driven command stream satisfies (pen discipline,
  no repeated draw, no motion to the current point, travel count).
- `Sequencer`: the per-glyph pen machine as fold-left specification
  functions. One machine covers both variants. `Rules` captures where they
  differ:
  - a travel only on the first move vs. on every move that changes position;
  - curves blended from the live current point vs. from a captured start;
  - ClosePath lifts the pen vs. ClosePath is ignored;
  - 20 vs. 2 curve steps, and 20 vs. 3 passes of the sampling loop.
- `Layout`: the two variants' constants, the per-line and per-text folds,
  and `Program` = header + body + footer.
- `ApiHandler` and `ClientGenerate`: the two compilers as imperative
  methods, with the source's nested loops and mutable pen state. Each is
  proved equal to the specification functions.
- `Formats`: the format registry (field toggles, adding and deleting
  formats) and the registry invariant.
- `Letters`: placeholder substitution, the missing-field check, and the
  job run.
- `Findings`: concrete outlines that exhibit three defects of the API
  sequencer, together with the corrected rules.

Some inputs come from outside the compiler, so the model takes them as
parameters:

- **Fonts.** A font is a value: units per em, a map from characters to
  glyphs (advance width and outline commands in font units), and a
  fallback glyph. Loading a font is a lookup by path in a
  `map<string, Font>`. A path that is absent is a load failure.
- **Date.** The current date used by the preview is a parameter.
- **User confirmation.** Whether the user confirmed a deletion is a
  parameter.

Coordinates are exact reals. Curve sample k is taken at t = k/steps, for
k from 0 up to the number of passes the source's floating-point loop
`for (t = 0; t <= 1; t += 1 / steps)` makes. With 20 steps that loop makes
20 passes and stops at t = 0.95, because the accumulated t overshoots 1.
With 2 steps it makes 3 passes, at 0, 0.5 and 1.

Two behaviours of the code are worth spelling out:

- **The single-stroke "I" glyph.** A glyph whose first MoveTo lands on the
  glyph origin gets no travel. The code compares the target with the
  current point, which starts at the origin (`Findings.SingleStroke`).
- **Characters without a glyph.** A character the font maps to no glyph
  gets the font's fallback glyph, in both variants. The API route skips a
  glyph whose outline is empty, and its cursor does not advance. The
  client draws every glyph and advances by its width.

## Model

| member | source | states |
|---|---|---|
| ApiHandler.Handle | app/api/generate-gcode.js:4-30 | A method other than POST gets 405 and nothing else. A POST without text, profile or font name gets 400. A font that does not load gets 500 with the path tried (the profile's font path, else `/fonts/<font>.ttf`). Otherwise the reply is 200 with exactly `Program(Api, font, text)`; no partial program ever comes back |
| ApiHandler.CompileText | app/api/generate-gcode.js:32-56 | The compiled text equals header + body + footer, where the body places trimmed retained line i at `marginY + i*lineHeight` |
| ApiHandler.CompileLine | app/api/generate-gcode.js:55-154 | The character loop ends with exactly the commands of the line fold `LineRun`, one `PlaceChar` per character |
| ApiHandler.PlaceGlyph | app/api/generate-gcode.js:59-153 | One character gets its glyph, or the fallback glyph when unmapped. A glyph with an empty outline is skipped and the cursor stays. Otherwise the glyph is traced at the cursor, which then moves by `advanceWidth*scale + 0.1` |
| ApiHandler.TraceGlyph | app/api/generate-gcode.js:69-151 | The outline loop, with its mutable `penDown`, `firstMove`, `prevX`/`prevY`, emits exactly `GlyphPath(ApiRules, …)`: moves, lines, curves and closes as the pen machine defines them, then a final lift if the pen is down |
| ApiHandler.FlattenCurve | app/api/generate-gcode.js:103-137 | The sample loop equals the 20 passes of `Samples` under the API rules. These are t = s/20 for s = 0..19, as many as the double-precision loop makes, each blended from the live current point |
| ClientGenerate.GenerateGcode | app/components/PenPlotterApp.jsx:208-324 | A missing profile is rejected, then a profile with neither font nor font path, then a font that does not load; a failure yields no program. Otherwise the result is exactly `Program(Client, font, text)` |
| ClientGenerate.CompileLine | app/components/PenPlotterApp.jsx:243-315 | The character loop ends with exactly the commands of the line fold `LineRun`, one `PlaceChar` per character |
| ClientGenerate.PlaceGlyph | app/components/PenPlotterApp.jsx:247-314 | Every glyph is traced at the cursor, the fallback glyph when the character is unmapped. The cursor then moves by `advanceWidth*scale*0.3` |
| ClientGenerate.TraceGlyph | app/components/PenPlotterApp.jsx:249-313 | The outline loop emits exactly `GlyphPath(ClientRules, …)`. Every move that changes position travels. ClosePath is ignored. A final lift is added if the pen is down |
| ClientGenerate.FlattenCurve | app/components/PenPlotterApp.jsx:275-308 | Samples are taken at t = 0, 1/2, 1 from the captured start. The pen is lowered at the first sample if up, and each sample that moves the pen is drawn |
| Layout.Program | app/api/generate-gcode.js:32-162 | The program is the header, the body and the footer, as three slices. The header prints as `G21, G90, F20000` and then the variant's lift line (Z1.0 for the API, Z0.5 for the client) twice. The footer prints as that lift line, `G90 G0 X0 Y0`, `M30`. The body in between ends with the pen up and repeats no draw |
| GCode.ApiBoilerplate | app/api/generate-gcode.js:33-39 | The API header is `G21, G90, F20000, G1G90 Z1.0F20000` twice, and its footer is `G1G90 Z1.0F20000, G90 G0 X0 Y0, M30` |
| GCode.ClientBoilerplate | app/components/PenPlotterApp.jsx:217-220 | The client header is `G21, G90, F20000, G1G90 Z0.5F20000` twice, and its footer is `G1G90 Z0.5F20000, G90 G0 X0 Y0, M30` |
| GCode.FixedLines | app/api/generate-gcode.js:158-162 | Prints a list of coordinate-free commands, one line per command |
| GCode.PenAfterAppend | app/api/generate-gcode.js:76-150 | Pen states compose over concatenated command streams |
| GCode.NoRepeatedDrawAppend | app/api/generate-gcode.js:98-101 | Gluing two streams that have no repeated draw, where the first does not end with a draw, gives a stream with no repeated draw |
| Sequencer.GlyphPenDiscipline | app/api/generate-gcode.js:81-150 | For both variants and any outline: a lift comes only while the pen is down and a lower only while it is up, so they alternate. A draw comes only while down and a travel only while up. No draw repeats the previous point. The glyph ends with the pen up |
| Sequencer.Step | app/api/generate-gcode.js:76-143 | One outline command only appends commands. A MoveTo leaves the pen up and a LineTo or a curve leaves it down. After a MoveTo or a LineTo the current point is its transformed target. ClosePath lifts under `liftOnClose` and leaves the current point. A cleared `firstMove` stays cleared |
| Sequencer.Samples | app/api/generate-gcode.js:109-136 | Sampling a curve only appends commands, and keeps the pen height and `firstMove` |
| Sequencer.GlyphPath | app/api/generate-gcode.js:69-150 | An empty outline emits no command |
| Sequencer.GlyphNoIdleMotion | app/components/PenPlotterApp.jsx:255-307 | Under rules that travel on every position change (the client's), no travel or draw goes to the point the pen is at |
| Sequencer.GlyphAtMostOneTravel | app/api/generate-gcode.js:78-90 | Under the API rules a glyph emits at most one travel |
| Sequencer.SoundStep | app/api/generate-gcode.js:76-143 | Each outline command keeps the pen-discipline invariant |
| Sequencer.SoundRun | app/api/generate-gcode.js:76-144 | The invariant holds after any prefix of an outline |
| Sequencer.TrackedStep | app/components/PenPlotterApp.jsx:254-308 | Each command keeps the current point equal to where the emitted motions put the pen |
| Sequencer.CountedStep | app/api/generate-gcode.js:76-143 | Under the API rules each outline command keeps the travel count at 0 while `firstMove` holds and at 1 once it is cleared |
| Sequencer.CountedMove | app/api/generate-gcode.js:85-88 | A MoveTo travels only while `firstMove` holds, and a travel clears it |
| Sequencer.CurvePoints | app/components/PenPlotterApp.jsx:279-297 | The reference points at t = k/steps, k = 0..steps, number steps+1. The first is the start and the last the curve's end |
| Sequencer.FirstSampleIdle | app/api/generate-gcode.js:109-136 | The t = 0 sample is the current point, so it is never drawn |
| Sequencer.CurveReachesEnd | app/components/PenPlotterApp.jsx:279-307 | When the loop's last pass is at t = 1 (the client's passes at 0, 1/2, 1), the current point after a curve is the curve's end point, whatever the samples blend from |
| Sequencer.SamplesOnCurve | app/components/PenPlotterApp.jsx:276-307 | With a captured start, sampling only appends draws and keeps the pen state. Every draw lies on the Bézier curve at some t = k/steps |
| Geometry.TransformRoundTrip | app/api/generate-gcode.js:79-80 | `x = baseX + cx*scale`, `y = baseY - cy*scale` loses nothing for a positive scale, and a higher outline y (`cmd.y`) lands lower (Y inverted) |
| Geometry.Quad1 | app/api/generate-gcode.js:112-119 | The quadratic blend is its start at t = 0 and its end at t = 1 |
| Geometry.Cubic1 | app/api/generate-gcode.js:121-130 | The cubic blend is its start at t = 0 and its end at t = 1 |
| Geometry.CurveAt | app/components/PenPlotterApp.jsx:280-297 | A curve point is its start at t = 0 and its end point at t = 1 |
| Geometry.QuadInHull | app/api/generate-gcode.js:112-119 | For t in [0, 1] a quadratic sample lies between the least and the greatest control value |
| Geometry.QuadBulge | app/api/generate-gcode.js:112-119 | A control value pulled above the chord pulls every interior sample above the chord |
| Geometry.CubicInHull | app/api/generate-gcode.js:121-130 | For t in [0, 1] a cubic sample lies between the least and the greatest control value |
| Layout.BodyPenDiscipline | app/api/generate-gcode.js:51-155 | The whole body, for either variant and any text, keeps the pen discipline, has no repeated draw and ends with the pen up |
| Layout.CleanText | app/api/generate-gcode.js:51-155 | Concatenating the glyphs of all lines keeps the discipline |
| Layout.LineRun | app/api/generate-gcode.js:55-153 | After any prefix of a line the cursor is the left margin plus `AdvanceSum`, a separate fold over the drawn characters' advances |
| Layout.GlyphFor | app/api/generate-gcode.js:60-66 | A drawn glyph is the font's glyph for the character, or its fallback glyph. A glyph is skipped exactly when the variant is the API and its outline is empty |
| Layout.Advance | app/api/generate-gcode.js:153 | For a glyph of non-negative width, the API cursor moves on by at least the 0.1 letter spacing, and the client cursor never moves back |
| Layout.SkippedCharInvisible | app/api/generate-gcode.js:60-66 | On the API route, a character whose glyph (mapped, or the fallback glyph when unmapped) has an empty outline neither draws nor moves the cursor |
| Layout.BlankLineInvisible | app/api/generate-gcode.js:50-56 | In "A\n\nB" the B is placed on line slot 1, because blank lines are dropped before numbering |
| Layout.LineSpacing | app/components/PenPlotterApp.jsx:223-226 | Line 0 is on the top margin, and lines are 9.6 (API) or 4.3 (client) apart |
| Text.TrimStart | app/api/generate-gcode.js:52 | Drops exactly the leading whitespace |
| Text.TrimEnd | app/api/generate-gcode.js:52 | Drops exactly the trailing whitespace |
| Text.TrimEmptyIffBlank | app/api/generate-gcode.js:50 | `line.trim().length > 0` holds exactly for lines that are not all whitespace |
| Text.TrimShape | app/components/PenPlotterApp.jsx:240 | A trimmed line is a contiguous piece of the line that neither starts nor ends with whitespace |
| Text.Pieces | app/api/generate-gcode.js:50 | `split` gives at least one piece, and the first piece is a prefix of the text |
| Text.JoinPieces | app/components/PenPlotterApp.jsx:237 | Joining the pieces of a split with the separator gives back the text |
| Text.PiecesAvoidSep | app/components/PenPlotterApp.jsx:237 | No piece of a split contains the separator |
| Text.PiecesOfAvoiding | app/api/generate-gcode.js:50 | A text without the separator is a single piece |
| Text.ReplaceAllIsSplitJoin | app/components/PenPlotterApp.jsx:348-355 | A global literal replace is a split on the pattern joined with the replacement |
| Text.ReplaceAllIdentity | app/components/PenPlotterApp.jsx:194-206 | Replacing a pattern by itself changes nothing, and a text without the pattern is unchanged |
| Text.NonBlank | app/components/PenPlotterApp.jsx:237 | The filter keeps exactly the non-blank lines and nothing else |
| Text.NonBlankAppend | app/api/generate-gcode.js:50 | The filter keeps order and multiplicity. Filtering a concatenation filters each part, and a single line is kept exactly when it is not blank |
| Text.BlankLineTakesNoSlot | app/components/PenPlotterApp.jsx:237 | The retained lines of "A\n\nB" are ["A", "B"] |
| Formats.Remove | app/components/PenPlotterApp.jsx:470 | The filter keeps exactly the fields other than the one removed |
| Formats.RemoveAppend | app/components/PenPlotterApp.jsx:470 | The filter keeps order and multiplicity. Filtering a concatenation filters each part, and one field is kept exactly when it is not the one removed |
| Formats.RemoveNoDup | app/components/PenPlotterApp.jsx:477 | Filtering keeps a duplicate-free list duplicate-free |
| Formats.FieldToggle | app/components/PenPlotterApp.jsx:461-481 | A field present in the chosen list leaves it, and the other list is untouched. An absent field is appended to the chosen list and removed from the other. The filtered list is exactly `Remove` of the old one, so the other fields keep their order. No other field changes membership, and key, label and template stay |
| Formats.ToggleKeepsShape | app/components/PenPlotterApp.jsx:461-481 | Required and optional lists that start disjoint and duplicate-free stay so |
| Formats.ToggleTwice | app/components/PenPlotterApp.jsx:468-478 | Toggling a field that is in neither list twice restores the draft |
| Formats.AddFormat | app/components/PenPlotterApp.jsx:411-439 | An empty key, label or template is rejected, and then a taken key is rejected (including names every object inherits). Otherwise exactly that key is added with the draft's label, fields and template. Other formats are unchanged, the draft is reset and the dialog closes |
| Formats.DeleteFormat | app/components/PenPlotterApp.jsx:441-458 | `chumba` and `stake` are refused. A key with no format fails (reading its label). Unconfirmed deletes change nothing. A confirmed delete removes exactly that key and, if it was selected, selects `chumba` and shows its template |
| Formats.AddKeepsValid | app/components/PenPlotterApp.jsx:418-430 | Adding keeps both defaults, the selection and the shown template consistent |
| Formats.DeleteKeepsValid | app/components/PenPlotterApp.jsx:442-457 | Deleting never removes a default format and keeps the selection and shown template consistent |
| Formats.InitialValid | app/components/PenPlotterApp.jsx:8-44 | The initial registry (chumba, stake, chumba selected) is consistent |
| Formats.AddThenDelete | app/components/PenPlotterApp.jsx:411-458 | In a consistent registry a format just added can be deleted, restoring the formats |
| Letters.NoBraceAvoids | app/components/PenPlotterApp.jsx:348-355 | A text without `{` contains no placeholder |
| Letters.FillTemplate | app/components/PenPlotterApp.jsx:348-355 | A template without `{` comes out of the seven replacements unchanged |
| Letters.PlainPrefix | app/components/PenPlotterApp.jsx:348-355 | A global replace of a placeholder leaves a brace-free prefix as it is and goes on after it |
| Letters.SlotStep | app/components/PenPlotterApp.jsx:348-355 | Replacement j leaves an earlier-filled value and a later placeholder as they are, and replaces its own placeholder by its value |
| Letters.AssembleStep | app/components/PenPlotterApp.jsx:348-355 | In a template made of brace-free pieces and placeholders, replacement j fills every occurrence of placeholder j and changes nothing else |
| Letters.FillChain | app/components/PenPlotterApp.jsx:348-355 | Any template made of brace-free pieces and any number of placeholders, in any order and repeated, comes out of the seven replacements with every placeholder replaced by its value, when no value contains `{` |
| Letters.FillOne | app/components/PenPlotterApp.jsx:348-355 | Corollary of FillChain: one placeholder between brace-free texts a and b comes out as a + its value + b |
| Letters.FillDefaults | app/components/PenPlotterApp.jsx:13-19 | The two default templates print their greeting, body and code lines with name (Chumba) or username (Stake), body and code filled in |
| Letters.PreviewValues | app/components/PenPlotterApp.jsx:194-206 | A filled profile field is shown as it is, and an empty date shows today. The preview never shows an empty name, username, email, address, code or body. The date is empty only when both the profile date and today are empty |
| Letters.PreviewMatchesRun | app/components/PenPlotterApp.jsx:194-206 | With every field filled, the preview prints the same text as the run |
| Letters.MissingKeys | app/components/PenPlotterApp.jsx:333-334 | A field is reported exactly when it is required, is not `code`, and is empty in the profile |
| Letters.MissingKeysAppend | app/components/PenPlotterApp.jsx:333-334 | The reported keys follow the required list in order and multiplicity. Those of a concatenation are those of each part, and a single field is reported exactly when it is not `code` and is empty |
| Letters.MissingFieldsAppend | app/components/PenPlotterApp.jsx:333-335 | The alert's names follow the required list in order, one per missing field, each the field's capitalised name |
| Letters.NothingMissing | app/components/PenPlotterApp.jsx:336 | Nothing is reported exactly when every required field other than `code` is filled |
| Letters.ChumbaCheck | app/components/PenPlotterApp.jsx:8-14 | For the Chumba format with a name, the check passes with an email and reports exactly "Email" without one |
| Letters.HandleRun | app/components/PenPlotterApp.jsx:326-362 | A run is refused without a code, then with missing required fields (reported), then without a font. Otherwise it compiles the template filled with the profile values. The file is `<format>_001.gcode` in `<format>_gcode.zip` |
| Findings.SecondContourNotTravelled | app/api/generate-gcode.js:85-88 | As written, a glyph's second contour starts without a travel, so its stroke becomes a draw to where the pen already is |
| Findings.TwoContoursTrace | app/api/generate-gcode.js:70-101 | The route's exact commands for the two-contour outline: one travel, then the second stroke lowered and drawn at (2,0) |
| Findings.IdleSecondDraw | app/api/generate-gcode.js:85-88 | That command list draws to the point the pen already holds |
| Findings.SecondContourTravelled | app/api/generate-gcode.js:85-88 | With the rule corrected, the second contour gets its travel and its stroke is drawn |
| Findings.CorrectedNoIdleMotion | app/api/generate-gcode.js:85-89 | Under the corrected rules no glyph moves to the point the pen is at |
| Findings.LiveBlendLeavesCurve | app/api/generate-gcode.js:112-119 | As written, the second sample drawn on a quadratic arch is (1.405, 2.5695). The arch passes through that point at no t |
| Findings.CapturedBlendOnCurve | app/api/generate-gcode.js:112-119 | Blending from the captured start, that sample is the arch's own point (1.0, 1.8) |
| Findings.CorrectedSamplesOnCurve | app/api/generate-gcode.js:108-137 | Under the corrected rules every curve draw lies on the curve |
| Findings.CurveStopsShort | app/api/generate-gcode.js:108-109 | As written, after the 20 passes over a straight quadratic ramp from (0,0) to (1,0) the pen rests at x <= 0.905, not at the ramp's end |
| Findings.RampSamplesInside | app/api/generate-gcode.js:109-136 | Each sample on that ramp keeps x within [0, 1], whatever the blend starts from |
| Findings.CorrectedCurveReachesEnd | app/api/generate-gcode.js:108-109 | With a 21st pass, at t = 1, every curve leaves the pen at its end point |
| Findings.SingleStroke | app/api/generate-gcode.js:78-102 | The "I" stroke at (1,1) with scale 0.01 emits a lower, a draw to (1, -6) and a lift, with no travel |

## Left out

- Font loading, `charToGlyph`, `stringToGlyphs`, `getPath` and SVG path parsing are not modelled. A font is a value, and loading it is a lookup by path.
- `stringToGlyphs` ligature and shaping substitutions are not modelled: the client gets one glyph per character.
- Path coordinates are taken as font-unit outlines. In the route they come from `getPath(0, 0, fontSize)`, which has already scaled them and flipped Y. The route's `y = baseY - cmd.y * scale` then scales them again and flips Y a second time. An outline y thus lands at `baseY + y*scale²`: the route draws glyphs at scale² size and mirrored in Y relative to the client. The model leaves that double transform out: each variant applies `Transform` once.
- Output text formatting is abstract. Coordinates are not printed with `toFixed(3)`, and commands are datatypes rather than lines. Only the coordinate-free lines are given as text (`GCode.FixedLines`).
- Sequencer.Samples: t is the exact k/steps, and coordinates are exact reals rather than IEEE doubles. The number of passes of the floating-point loop `t += 1/steps` is carried over as `Rules.samples`: 20 for 20 steps, 3 for 2 steps. The rounding error of a few units in the last place in each t is not.
- Layout.GlyphOf: an unmapped character gets the font's fallback glyph. That is what opentype.js's `charToGlyph` and `stringToGlyphs` do. The library is not part of this model, so the route's `if (!glyph) continue` is taken never to fire.
- ApiHandler.Handle: the catch-all 500 for errors thrown while compiling is not modelled. The model's compilation cannot fail.
- Letters.Upper: upper-cases ASCII letters only. JavaScript's `toUpperCase` maps all of Unicode (and can lengthen a string). The field names are ASCII.
- Letters.FillChain: states the substitution for values without `{`. A value that contains `{` can form a placeholder that a later replacement fills. `FillTemplate` follows that chain, but no lemma describes it.
- Letters.FillTemplate: the replacement strings are taken literally. JavaScript gives `$&`, `$1` and similar special meaning in a replacement string.
- Letters.HandleRun: the server-rendering early return, `alert`, the zip archive and the download are not modelled. The job is returned as a value.
- Formats.DeleteFormat: the confirmation dialog is a parameter.
- Formats.InheritedNames: lists the standard `Object.prototype` names only. Names added by the page's environment are not included.
- The preview's current date is a parameter (`today`).
- `generateRandomCode` is not modelled, because it uses `Math.random`.
- Not modelled, because they are not part of the compiler or the format registry:
  - the React hooks and rendering;
  - the `@font-face` injection;
  - font upload;
  - profile saving and loading;
  - the database and file routes (`app/api/upload-font`, `save-profile`, `get-profiles`, `get-fonts`, `app/lib/db.js`).

## Findings

| source | as written | input that shows it | evidently intended | confidence | as-written member | corrected member |
|---|---|---|---|---|---|---|
| app/api/generate-gcode.js:85-88 | `firstMove` is cleared by the first travel of a glyph, so every later MoveTo (a new contour) only updates `prevX`/`prevY`, without a travel | outline MoveTo(1,0) LineTo(2,0) MoveTo(3,0) LineTo(2,0) at origin (0,0), scale 1: the pen is lowered at (2,0) and "draws" to (2,0); the contour from (3,0) is lost | each contour starts with a pen-up travel to its MoveTo point, as the client does | not executed; high | Findings.SecondContourNotTravelled | Findings.CorrectedNoIdleMotion |
| app/api/generate-gcode.js:112-130 | the blend's start term uses `prevX`/`prevY`, which each drawn sample overwrites, so later samples blend from the previous sample instead of the curve's start | quadratic from (0,0), control (5,10), end (10,0): the sample at t = 2/20 is drawn at (1.405, 2.5695) instead of the curve's (1.0, 1.8) | blend from the start point captured before sampling, as the client does | not executed; high | Findings.LiveBlendLeavesCurve | Findings.CorrectedSamplesOnCurve |
| app/api/generate-gcode.js:108-109 | `t` is accumulated by adding the double 0.05, which is slightly above 1/20. With rounding, t after 20 additions is 1.0000000000000002, so the loop makes 20 passes, t = 0 to 0.95, and never samples t = 1 | the straight quadratic from (0,0), control (0,0), end (1,0): afterwards the pen rests at x <= 0.905, so the rest of the curve is not drawn and the next command starts from there | a last pass at t = 1, so that every curve ends at its end point, as the client's three passes do | not executed; high | Findings.CurveStopsShort | Findings.CorrectedCurveReachesEnd |

`ApiHandler` models the route as written, with the API rules.
`Findings.CorrectedApiRules` applies all three corrections. Under those
rules the three properties above hold for every outline.
