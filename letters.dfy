/** Filling a format's template with the profile and running the job: the
    `{field}` placeholder substitution of the preview and of the run, the
    required-field check, and the order of the checks before the G-code is
    compiled. */
module Letters {
  import opened Wrappers
  import opened Text
  import opened GCode
  import opened Layout
  import opened Formats
  import ClientGenerate

  /** The profile fields of the client form; an unset field is "". */
  datatype UserProfile = UserProfile(
    name: string, username: string, email: string, address: string, date: string,
    font: string, fontPath: string, format: string, body: string, code: string)

  /** `profile[field]` for a field name, "" for a name the form does not have. */
  function Field(p: UserProfile, field: string): string {
    match field
    case "name" => p.name
    case "username" => p.username
    case "email" => p.email
    case "address" => p.address
    case "date" => p.date
    case "font" => p.font
    case "fontPath" => p.fontPath
    case "format" => p.format
    case "body" => p.body
    case "code" => p.code
    case _ => ""
  }

  // ---------------------------------------------------------------------
  // Placeholder substitution.

  /** The values substituted for the seven placeholders. */
  datatype Values = Values(
    name: string, username: string, email: string, address: string,
    date: string, code: string, body: string)

  /** Replaces every `{name}`, then every `{username}`, `{email}`,
      `{address}`, `{date}`, `{code}` and `{body}`, in that order, each
      over the result of the previous replacement.  A template without
      placeholders is printed as it is. */
  function FillTemplate(t: string, v: Values): (r: string)
    ensures NoBrace(t) ==> r == t
  {
    var s1 := ReplaceAll(t, "{name}", v.name);
    var s2 := ReplaceAll(s1, "{username}", v.username);
    var s3 := ReplaceAll(s2, "{email}", v.email);
    var s4 := ReplaceAll(s3, "{address}", v.address);
    var s5 := ReplaceAll(s4, "{date}", v.date);
    var s6 := ReplaceAll(s5, "{code}", v.code);
    var r := ReplaceAll(s6, "{body}", v.body);
    assert NoBrace(t) ==> r == t by {
      if NoBrace(t) {
        PlainUnchanged(t, "{name}", v.name);
        PlainUnchanged(t, "{username}", v.username);
        PlainUnchanged(t, "{email}", v.email);
        PlainUnchanged(t, "{address}", v.address);
        PlainUnchanged(t, "{date}", v.date);
        PlainUnchanged(t, "{code}", v.code);
        PlainUnchanged(t, "{body}", v.body);
      }
    }
    r
  }

  /** `s` has no '{'. */
  predicate NoBrace(s: string) {
    forall k | 0 <= k < |s| :: s[k] != '{'
  }

  lemma NoBraceAvoids(s: string, p: string)
    requires NoBrace(s) && p != [] && p[0] == '{'
    ensures Avoids(s, p)
  {
    forall i | 0 <= i <= |s| ensures !OccursAt(s, p, i) {
      if 0 <= i && i + |p| <= |s| {
        assert s[i..i + |p|][0] != p[0];
      }
    }
  }

  lemma PlainUnchanged(s: string, p: string, rep: string)
    requires NoBrace(s) && p != [] && p[0] == '{'
    ensures ReplaceAll(s, p, rep) == s
  {
    NoBraceAvoids(s, p);
    ReplaceAllIdentity(s, p, rep);
  }

  /** The seven placeholders, in the order they are replaced. */
  const Placeholders: seq<string> := ["{name}", "{username}", "{email}", "{address}", "{date}", "{code}", "{body}"]

  /** The value substituted for placeholder number `k`. */
  function ValueOf(v: Values, k: nat): string
    requires k < 7
  {
    match k
    case 0 => v.name
    case 1 => v.username
    case 2 => v.email
    case 3 => v.address
    case 4 => v.date
    case 5 => v.code
    case _ => v.body
  }

  /** No value contains a '{', so no replacement makes a new placeholder. */
  predicate ValuesPlain(v: Values) {
    forall k | 0 <= k < 7 :: NoBrace(ValueOf(v, k))
  }

  /** Brace-free text in front is passed over by a placeholder replace. */
  lemma {:induction false} PlainPrefix(x: string, y: string, p: string, rep: string)
    requires p != [] && p[0] == '{' && NoBrace(x)
    ensures ReplaceAll(x + y, p, rep) == x + ReplaceAll(y, p, rep)
    decreases |x|
  {
    var s := x + y;
    if x == [] {
      assert s == y;
    } else if |s| >= |p| {
      assert s[..|p|][0] == x[0];
      assert s[1..] == x[1..] + y;
      PlainPrefix(x[1..], y, p, rep);
      assert [x[0]] + (x[1..] + ReplaceAll(y, p, rep)) == x + ReplaceAll(y, p, rep);
    }
  }

  /** The text in slot `k` of a template once placeholders 0..j-1 have
      been replaced: still the placeholder, or already its value. */
  function Middle(v: Values, k: nat, j: nat): string
    requires k < 7
  {
    if k < j then ValueOf(v, k) else Placeholders[k]
  }

  /** Replacement number `j` turns slot `k` into its next stage and goes
      on with the text after it: it fills its own placeholder, and leaves
      a filled value or a different placeholder as it is. */
  lemma SlotStep(v: Values, k: nat, j: nat, rest: string)
    requires k < 7 && j < 7 && ValuesPlain(v)
    ensures ReplaceAll(Middle(v, k, j) + rest, Placeholders[j], ValueOf(v, j))
         == Middle(v, k, j + 1) + ReplaceAll(rest, Placeholders[j], ValueOf(v, j))
  {
    var p, q, rep := Placeholders[j], Placeholders[k], ValueOf(v, j);
    var s := Middle(v, k, j) + rest;
    if k < j {
      PlainPrefix(ValueOf(v, k), rest, p, rep);
    } else if k == j {
      assert s[..|p|] == p && s[|p|..] == rest;
    } else if |s| >= |p| {
      assert s[..|p|][1] == q[1] != p[1];
      assert s[1..] == q[1..] + rest;
      PlainPrefix(q[1..], rest, p, rep);
      assert [q[0]] + (q[1..] + ReplaceAll(rest, p, rep)) == q + ReplaceAll(rest, p, rep);
    }
  }

  /** Every piece of the list is free of '{'. */
  predicate PlainPieces(a: seq<string>) {
    forall i | 0 <= i < |a| :: NoBrace(a[i])
  }

  /** A template made of brace-free texts `a` with placeholder slots `ks`
      between them, a[0] ks[0] a[1] ks[1] ... a[n], at stage `j`. */
  function Assemble(a: seq<string>, ks: seq<nat>, v: Values, j: nat): string
    requires |a| == |ks| + 1 && forall i | 0 <= i < |ks| :: ks[i] < 7
    decreases |ks|
  {
    if ks == [] then a[0] else a[0] + Middle(v, ks[0], j) + Assemble(a[1..], ks[1..], v, j)
  }

  /** Replacement number `j` takes the whole template from stage `j` to
      stage `j + 1`. */
  lemma {:induction false} AssembleStep(a: seq<string>, ks: seq<nat>, v: Values, j: nat)
    requires |a| == |ks| + 1 && (forall i | 0 <= i < |ks| :: ks[i] < 7) && j < 7
    requires PlainPieces(a) && ValuesPlain(v)
    ensures ReplaceAll(Assemble(a, ks, v, j), Placeholders[j], ValueOf(v, j)) == Assemble(a, ks, v, j + 1)
    decreases |ks|
  {
    var p, rep := Placeholders[j], ValueOf(v, j);
    if ks == [] {
      PlainUnchanged(a[0], p, rep);
    } else {
      var rest := Assemble(a[1..], ks[1..], v, j);
      assert a[0] + Middle(v, ks[0], j) + rest == a[0] + (Middle(v, ks[0], j) + rest);
      PlainPrefix(a[0], Middle(v, ks[0], j) + rest, p, rep);
      SlotStep(v, ks[0], j, rest);
      AssembleStep(a[1..], ks[1..], v, j);
    }
  }

  /** The seven replacements fill every slot of a template with its value,
      whatever placeholders the slots hold and in whatever order, when
      neither the texts between them nor the values contain a '{'. */
  lemma FillChain(a: seq<string>, ks: seq<nat>, v: Values)
    requires |a| == |ks| + 1 && (forall i | 0 <= i < |ks| :: ks[i] < 7)
    requires PlainPieces(a) && ValuesPlain(v)
    ensures FillTemplate(Assemble(a, ks, v, 0), v) == Assemble(a, ks, v, 7)
  {
    FillInTurn(Assemble(a, ks, v, 0), v);
    FillFromAssemble(a, ks, v, 0);
  }

  /** Replacements j..6 applied in turn. */
  ghost function FillFrom(t: string, v: Values, j: nat): string
    requires j <= 7
    decreases 7 - j
  {
    if j == 7 then t else FillFrom(ReplaceAll(t, Placeholders[j], ValueOf(v, j)), v, j + 1)
  }

  lemma FillInTurn(t: string, v: Values)
    ensures FillTemplate(t, v) == FillFrom(t, v, 0)
  {
    var s1 := ReplaceAll(t, "{name}", v.name);
    var s2 := ReplaceAll(s1, "{username}", v.username);
    var s3 := ReplaceAll(s2, "{email}", v.email);
    var s4 := ReplaceAll(s3, "{address}", v.address);
    var s5 := ReplaceAll(s4, "{date}", v.date);
    var s6 := ReplaceAll(s5, "{code}", v.code);
    var s7 := ReplaceAll(s6, "{body}", v.body);
    assert FillFrom(s6, v, 6) == s7;
    assert FillFrom(s5, v, 5) == s7;
    assert FillFrom(s4, v, 4) == s7;
    assert FillFrom(s3, v, 3) == s7;
    assert FillFrom(s2, v, 2) == s7;
    assert FillFrom(s1, v, 1) == s7;
  }

  lemma {:induction false} FillFromAssemble(a: seq<string>, ks: seq<nat>, v: Values, j: nat)
    requires |a| == |ks| + 1 && (forall i | 0 <= i < |ks| :: ks[i] < 7) && j <= 7
    requires PlainPieces(a) && ValuesPlain(v)
    ensures FillFrom(Assemble(a, ks, v, j), v, j) == Assemble(a, ks, v, 7)
    decreases 7 - j
  {
    if j < 7 {
      AssembleStep(a, ks, v, j);
      FillFromAssemble(a, ks, v, j + 1);
    }
  }

  /** Each placeholder, put once into brace-free text, comes out as its
      value, when no value contains a '{'. */
  lemma FillOne(a: string, b: string, v: Values, k: nat)
    requires k < 7 && NoBrace(a) && NoBrace(b) && ValuesPlain(v)
    ensures FillTemplate(a + Placeholders[k] + b, v) == a + ValueOf(v, k) + b
  {
    var pieces, ks := [a, b], [k];
    assert pieces[1..] == [b] && ks[1..] == [];
    FillChain(pieces, ks, v);
  }

  /** What the two default formats print: their three placeholders filled
      with the values, the text around them as it is. */
  lemma FillDefaults(v: Values)
    requires ValuesPlain(v)
    ensures FillTemplate(Chumba.template, v)
         == "Hello " + v.name + ",\n" + v.body + "\nYour code is: " + v.code + "\nThank you!"
    ensures FillTemplate(Stake.template, v)
         == "Hi " + v.username + ",\n" + v.body + "\nYour Stake code: " + v.code + "\nEnjoy!"
  {
    var c, ck := ChumbaPieces(v);
    FillChain(c, ck, v);
    var t, tk := StakePieces(v);
    FillChain(t, tk, v);
  }

  /** The Chumba template cut at its placeholders. */
  lemma ChumbaPieces(v: Values) returns (c: seq<string>, ck: seq<nat>)
    ensures |c| == |ck| + 1 && (forall i | 0 <= i < |ck| :: ck[i] < 7) && PlainPieces(c)
    ensures Assemble(c, ck, v, 0) == Chumba.template
    ensures Assemble(c, ck, v, 7)
         == "Hello " + v.name + ",\n" + v.body + "\nYour code is: " + v.code + "\nThank you!"
  {
    c, ck := ChumbaCut();
    Assemble3(c, ck, v, 0);
    Assemble3(c, ck, v, 7);
  }

  lemma ChumbaCut() returns (c: seq<string>, ck: seq<nat>)
    ensures c == ["Hello ", ",\n", "\nYour code is: ", "\nThank you!"] && ck == [0, 6, 5]
    ensures PlainPieces(c)
    ensures c[0] + Placeholders[0] + c[1] + Placeholders[6] + c[2] + Placeholders[5] + c[3] == Chumba.template
  {
    c, ck := ["Hello ", ",\n", "\nYour code is: ", "\nThank you!"], [0, 6, 5];
    assert "Hello " + "{name}" == "Hello {name}";
    assert "Hello {name}" + ",\n" == "Hello {name},\n";
    assert "Hello {name},\n" + "{body}" == "Hello {name},\n{body}";
    assert "Hello {name},\n{body}" + "\nYour code is: " == "Hello {name},\n{body}\nYour code is: ";
    assert "Hello {name},\n{body}\nYour code is: " + "{code}" == "Hello {name},\n{body}\nYour code is: {code}";
    assert "Hello {name},\n{body}\nYour code is: {code}" + "\nThank you!" == Chumba.template;
  }

  /** The Stake template cut at its placeholders. */
  lemma StakePieces(v: Values) returns (t: seq<string>, tk: seq<nat>)
    ensures |t| == |tk| + 1 && (forall i | 0 <= i < |tk| :: tk[i] < 7) && PlainPieces(t)
    ensures Assemble(t, tk, v, 0) == Stake.template
    ensures Assemble(t, tk, v, 7)
         == "Hi " + v.username + ",\n" + v.body + "\nYour Stake code: " + v.code + "\nEnjoy!"
  {
    t, tk := StakeCut();
    Assemble3(t, tk, v, 0);
    Assemble3(t, tk, v, 7);
  }

  lemma StakeCut() returns (t: seq<string>, tk: seq<nat>)
    ensures t == ["Hi ", ",\n", "\nYour Stake code: ", "\nEnjoy!"] && tk == [1, 6, 5]
    ensures PlainPieces(t)
    ensures t[0] + Placeholders[1] + t[1] + Placeholders[6] + t[2] + Placeholders[5] + t[3] == Stake.template
  {
    t, tk := ["Hi ", ",\n", "\nYour Stake code: ", "\nEnjoy!"], [1, 6, 5];
    assert "Hi " + "{username}" == "Hi {username}";
    assert "Hi {username}" + ",\n" == "Hi {username},\n";
    assert "Hi {username},\n" + "{body}" == "Hi {username},\n{body}";
    assert "Hi {username},\n{body}" + "\nYour Stake code: " == "Hi {username},\n{body}\nYour Stake code: ";
    assert "Hi {username},\n{body}\nYour Stake code: " + "{code}" == "Hi {username},\n{body}\nYour Stake code: {code}";
    assert "Hi {username},\n{body}\nYour Stake code: {code}" + "\nEnjoy!" == Stake.template;
  }

  /** A template with three slots, written out. */
  lemma Assemble3(a: seq<string>, ks: seq<nat>, v: Values, j: nat)
    requires |a| == 4 && |ks| == 3 && ks[0] < 7 && ks[1] < 7 && ks[2] < 7
    ensures Assemble(a, ks, v, j)
         == a[0] + Middle(v, ks[0], j) + a[1] + Middle(v, ks[1], j) + a[2] + Middle(v, ks[2], j) + a[3]
  {
    var a1, a2, a3 := a[1..], a[2..], a[3..];
    var k1, k2, k3 := ks[1..], ks[2..], ks[3..];
    assert a1[1..] == a2 && a2[1..] == a3 && k1[1..] == k2 && k2[1..] == k3;
    assert a3 == [a[3]] && k3 == [];
    var r3 := Assemble(a3, k3, v, j);
    assert r3 == a[3];
    var r2 := Assemble(a2, k2, v, j);
    assert r2 == a[2] + Middle(v, ks[2], j) + r3;
    var r1 := Assemble(a1, k1, v, j);
    assert r1 == a[1] + Middle(v, ks[1], j) + r2;
    assert Assemble(a, ks, v, j) == a[0] + Middle(v, ks[0], j) + r1;
  }

  /** The values of the preview: each profile field, or a sample value when
      the field is empty; an empty date shows `today` (the current date as
      YYYY-MM-DD).  Only the date can come out empty. */
  function PreviewValues(p: UserProfile, today: string): (v: Values)
    ensures v.name != "" && v.username != "" && v.email != "" && v.address != ""
    ensures v.code != "" && v.body != ""
    ensures v.date == "" ==> p.date == "" && today == ""
    ensures p.name != "" ==> v.name == p.name
    ensures p.username != "" ==> v.username == p.username
    ensures p.email != "" ==> v.email == p.email
    ensures p.address != "" ==> v.address == p.address
    ensures p.date != "" ==> v.date == p.date
    ensures p.date == "" ==> v.date == today
    ensures p.code != "" ==> v.code == p.code
    ensures p.body != "" ==> v.body == p.body
  {
    Values(if p.name != "" then p.name else "John Doe",
           if p.username != "" then p.username else "johndoe",
           if p.email != "" then p.email else "john@example.com",
           if p.address != "" then p.address else "123 Main St",
           if p.date != "" then p.date else today,
           if p.code != "" then p.code else "123456",
           if p.body != "" then p.body else "This is a sample message.")
  }

  /** The preview of the selected format's template. */
  function PreviewText(t: FormatTemplate, p: UserProfile, today: string): string {
    FillTemplate(t.template, PreviewValues(p, today))
  }

  /** The values of a run: the profile fields as they are. */
  function RunValues(p: UserProfile): Values {
    Values(p.name, p.username, p.email, p.address, p.date, p.code, p.body)
  }

  /** With every field filled, the preview and the run print the same text. */
  lemma PreviewMatchesRun(t: FormatTemplate, p: UserProfile, today: string)
    requires p.name != "" && p.username != "" && p.email != "" && p.address != ""
    requires p.date != "" && p.code != "" && p.body != ""
    ensures PreviewText(t, p, today) == FillTemplate(t.template, RunValues(p))
  {
  }

  // ---------------------------------------------------------------------
  // Required fields.

  /** The required fields, other than `code`, that the profile leaves
      empty, in the order the format lists them. */
  function MissingKeys(required: seq<string>, p: UserProfile): (r: seq<string>)
    ensures |r| <= |required|
    ensures forall f :: f in r <==> f in required && f != "code" && Field(p, f) == ""
  {
    if required == [] then []
    else
      var rest := MissingKeys(required[1..], p);
      if required[0] != "code" && Field(p, required[0]) == "" then [required[0]] + rest else rest
  }

  /** The check keeps the order and multiplicity of the required list:
      the keys of a concatenation are the keys of each part, and one field
      is reported exactly when it is not `code` and is empty. */
  lemma {:induction false} MissingKeysAppend(a: seq<string>, b: seq<string>, f: string, p: UserProfile)
    ensures MissingKeys(a + b, p) == MissingKeys(a, p) + MissingKeys(b, p)
    ensures MissingKeys([f], p) == if f != "code" && Field(p, f) == "" then [f] else []
    decreases |a|
  {
    if a == [] {
      assert a + b == b;
    } else {
      assert (a + b)[1..] == a[1..] + b;
      MissingKeysAppend(a[1..], b, f, p);
    }
  }

  /** ASCII upper case; other characters are left as they are. */
  function Upper(c: char): (u: char)
    ensures 'a' <= c <= 'z' ==> 'A' <= u <= 'Z' && u as int - c as int == 'A' as int - 'a' as int
    ensures !('a' <= c <= 'z') ==> u == c
  {
    if 'a' <= c <= 'z' then (c as int - 'a' as int + 'A' as int) as char else c
  }

  /** `field.charAt(0).toUpperCase() + field.slice(1)` */
  function Capitalize(s: string): (r: string)
    ensures |r| == |s|
    ensures s != [] ==> r[0] == Upper(s[0]) && r[1..] == s[1..]
  {
    if s == [] then [] else [Upper(s[0])] + s[1..]
  }

  /** The names of the missing required fields as the alert lists them:
      capitalised, one per missing field, in order. */
  function MissingFields(required: seq<string>, p: UserProfile): (r: seq<string>)
    ensures |r| == |MissingKeys(required, p)|
    ensures forall i | 0 <= i < |r| :: r[i] == Capitalize(MissingKeys(required, p)[i])
  {
    var keys := MissingKeys(required, p);
    seq(|keys|, i requires 0 <= i < |keys| => Capitalize(keys[i]))
  }

  /** The alert's names follow the required list: those of a
      concatenation are those of each part, and one field contributes its
      capitalised name exactly when it is not `code` and is empty. */
  lemma MissingFieldsAppend(a: seq<string>, b: seq<string>, f: string, p: UserProfile)
    ensures MissingFields(a + b, p) == MissingFields(a, p) + MissingFields(b, p)
    ensures MissingFields([f], p) == if f != "code" && Field(p, f) == "" then [Capitalize(f)] else []
  {
    MissingKeysAppend(a, b, f, p);
  }

  /** Nothing is missing exactly when every required field other than
      `code` is filled. */
  lemma NothingMissing(required: seq<string>, p: UserProfile)
    ensures MissingFields(required, p) == [] <==>
            forall f | f in required && f != "code" :: Field(p, f) != ""
  {
    var keys := MissingKeys(required, p);
    if keys != [] {
      assert keys[0] in keys;
    }
  }

  /** A profile filled in as the Chumba format requires passes the check,
      and with an empty email the check names exactly "Email". */
  lemma ChumbaCheck(p: UserProfile)
    requires p.name != ""
    ensures p.email != "" ==> MissingFields(Chumba.requiredFields, p) == []
    ensures p.email == "" ==> MissingFields(Chumba.requiredFields, p) == ["Email"]
  {
    var req := Chumba.requiredFields;
    assert req[1..][1..][1..] == [];
    assert req[0] == "name" && req[1..][0] == "email" && req[1..][1..][0] == "code";
    assert MissingKeys(req[1..][1..], p) == [];
    assert MissingKeys(req, p) == MissingKeys(req[1..], p);
    if p.email == "" {
      assert MissingKeys(req[1..], p) == ["email"];
      assert Capitalize("email") == "Email";
    } else {
      assert MissingKeys(req[1..], p) == [];
    }
  }

  // ---------------------------------------------------------------------
  // Running a job.

  /** What a run produces: the G-code file's name, the archive's name and
      the program. */
  datatype Job = Job(fileName: string, archiveName: string, gcode: seq<GCmd>)

  datatype RunError =
    | NoCode
    | MissingRequired(fields: seq<string>)
    | NoFontSelected
    | GenerateError(failure: ClientGenerate.Failure)

  /** Runs the job for the selected format `t`: refused without a code,
      then when required fields are missing, then without a font;
      otherwise the filled template is compiled with the profile's font. */
  method HandleRun(p: UserProfile, t: FormatTemplate, fonts: map<string, Font>)
    returns (r: Result<Job, RunError>)
    ensures p.code == "" ==> r == Err(NoCode)
    ensures p.code != "" && MissingFields(t.requiredFields, p) != [] ==>
              r == Err(MissingRequired(MissingFields(t.requiredFields, p)))
    ensures p.code != "" && MissingFields(t.requiredFields, p) == [] && p.font == "" ==>
              r == Err(NoFontSelected)
    ensures p.code != "" && MissingFields(t.requiredFields, p) == [] && p.font != "" ==>
              var path := FontPath(p.font, p.fontPath);
              r == if path in fonts
                   then Ok(Job(p.format + "_001.gcode", p.format + "_gcode.zip",
                               Program(Client, fonts[path], FillTemplate(t.template, RunValues(p)))))
                   else Err(GenerateError(ClientGenerate.GenerateFailed(path)))
  {
    if p.code == "" {
      return Err(NoCode);
    }
    var missing := MissingFields(t.requiredFields, p);
    if |missing| > 0 {
      return Err(MissingRequired(missing));
    }
    if p.font == "" {
      return Err(NoFontSelected);
    }
    var content := FillTemplate(t.template, RunValues(p));
    var compiled := ClientGenerate.GenerateGcode(content, Some(Profile(p.font, p.fontPath)), fonts);
    match compiled
    case Err(f) => return Err(GenerateError(f));
    case Ok(gcode) => return Ok(Job(p.format + "_001.gcode", p.format + "_gcode.zip", gcode));
  }
}
