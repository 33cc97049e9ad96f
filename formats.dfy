/** The format-template registry of the client: named letter formats, each
    with its required and optional profile fields and a template text; a
    draft format being edited; adding and deleting formats; and which
    format the profile has selected. */
module Formats {
  import opened Wrappers

  /** A letter format; `title` is its label shown to the user. */
  datatype FormatTemplate = FormatTemplate(
    title: string,
    requiredFields: seq<string>,
    optionalFields: seq<string>,
    template: string)

  /** The format being composed in the "Manage Formats" dialog. */
  datatype Draft = Draft(
    key: string,
    title: string,
    requiredFields: seq<string>,
    optionalFields: seq<string>,
    template: string)

  const EmptyDraft := Draft("", "", [], [], "")

  const Chumba := FormatTemplate("Chumba", ["name", "email", "code"], ["username", "date"],
                                 "Hello {name},\n{body}\nYour code is: {code}\nThank you!")
  const Stake := FormatTemplate("Stake", ["name", "email", "username", "code"], ["date"],
                                "Hi {username},\n{body}\nYour Stake code: {code}\nEnjoy!")

  const DefaultFormats: map<string, FormatTemplate> := map["chumba" := Chumba, "stake" := Stake]

  /** The names every JavaScript object inherits from `Object.prototype`:
      looking one of them up in the registry object yields a truthy value
      even when no format has that key. */
  const InheritedNames: set<string> := {
    "constructor", "hasOwnProperty", "isPrototypeOf", "propertyIsEnumerable",
    "toLocaleString", "toString", "valueOf", "__proto__",
    "__defineGetter__", "__defineSetter__", "__lookupGetter__", "__lookupSetter__"
  }

  // ---------------------------------------------------------------------
  // Field lists of the draft.

  /** `fields.filter((f) => f !== field)` */
  function Remove(fields: seq<string>, field: string): (r: seq<string>)
    ensures |r| <= |fields|
    ensures forall f :: f in r <==> f in fields && f != field
  {
    if fields == [] then []
    else (if fields[0] == field then [] else [fields[0]]) + Remove(fields[1..], field)
  }

  /** Removing a field that is not in the list leaves the list as it is. */
  lemma {:induction false} RemoveAbsent(fields: seq<string>, field: string)
    requires field !in fields
    ensures Remove(fields, field) == fields
  {
    if fields != [] {
      RemoveAbsent(fields[1..], field);
    }
  }

  /** No field occurs twice. */
  predicate NoDup(fields: seq<string>) {
    forall i, j | 0 <= i < j < |fields| :: fields[i] != fields[j]
  }

  lemma {:induction false} RemoveNoDup(fields: seq<string>, field: string)
    requires NoDup(fields)
    ensures NoDup(Remove(fields, field))
  {
    if fields != [] {
      RemoveNoDup(fields[1..], field);
      var rest := Remove(fields[1..], field);
      var r := Remove(fields, field);
      if fields[0] != field {
        assert fields[0] !in rest;
        assert r == [fields[0]] + rest;
        forall i, j | 0 <= i < j < |r| ensures r[i] != r[j] {
          if i > 0 {
            assert r[i] == rest[i - 1] && r[j] == rest[j - 1];
          } else {
            assert r[j] in rest;
          }
        }
      }
    }
  }

  datatype FieldKind = Required | Optional

  function Chosen(d: Draft, kind: FieldKind): seq<string> {
    if kind == Required then d.requiredFields else d.optionalFields
  }

  function Other(d: Draft, kind: FieldKind): seq<string> {
    if kind == Required then d.optionalFields else d.requiredFields
  }

  /** Toggles `field` in the list of the given kind.  A field present in
      the chosen list is filtered out of it and the other list is
      untouched; an absent field is appended to the chosen list and
      filtered out of the other one.  No other field changes membership,
      and key, title and template stay. */
  function FieldToggle(d: Draft, field: string, kind: FieldKind): (r: Draft)
    ensures r.key == d.key && r.title == d.title && r.template == d.template
    ensures field in Chosen(d, kind) ==>
              field !in Chosen(r, kind) && Other(r, kind) == Other(d, kind)
    ensures field !in Chosen(d, kind) ==>
              Chosen(r, kind) == Chosen(d, kind) + [field] && field !in Other(r, kind)
    ensures field in Chosen(d, kind) ==> Chosen(r, kind) == Remove(Chosen(d, kind), field)
    ensures field !in Chosen(d, kind) ==> Other(r, kind) == Remove(Other(d, kind), field)
    ensures forall f | f != field ::
              (f in Chosen(r, kind) <==> f in Chosen(d, kind)) &&
              (f in Other(r, kind) <==> f in Other(d, kind))
  {
    var current := if kind == Required then d.requiredFields else d.optionalFields;
    var other := if kind == Required then d.optionalFields else d.requiredFields;
    if field in current then
      (if kind == Required then d.(requiredFields := Remove(current, field))
       else d.(optionalFields := Remove(current, field)))
    else
      (if kind == Required then d.(requiredFields := current + [field], optionalFields := Remove(other, field))
       else d.(optionalFields := current + [field], requiredFields := Remove(other, field)))
  }

  /** No field is both required and optional. */
  predicate Disjoint(d: Draft) {
    forall f :: f in d.requiredFields ==> f !in d.optionalFields
  }

  /** Lists that start disjoint and without duplicates stay so. */
  lemma ToggleKeepsShape(d: Draft, field: string, kind: FieldKind)
    requires Disjoint(d) && NoDup(d.requiredFields) && NoDup(d.optionalFields)
    ensures Disjoint(FieldToggle(d, field, kind))
    ensures NoDup(FieldToggle(d, field, kind).requiredFields) && NoDup(FieldToggle(d, field, kind).optionalFields)
  {
    var cur, oth := Chosen(d, kind), Other(d, kind);
    RemoveNoDup(cur, field);
    RemoveNoDup(oth, field);
    if field !in cur {
      var c := cur + [field];
      forall i, j | 0 <= i < j < |c| ensures c[i] != c[j] {
        if j < |cur| {
          assert c[i] == cur[i] && c[j] == cur[j];
        } else {
          assert c[i] == cur[i];
        }
      }
    }
  }

  /** Toggling a field that is in neither list twice gives back the draft. */
  lemma ToggleTwice(d: Draft, field: string, kind: FieldKind)
    requires field !in d.requiredFields && field !in d.optionalFields
    ensures FieldToggle(FieldToggle(d, field, kind), field, kind) == d
  {
    var cur := Chosen(d, kind);
    RemoveAbsent(cur, field);
    RemoveAbsent(Other(d, kind), field);
    RemoveAppended(cur, field);
  }

  /** Removing a field just appended gives back the list before it. */
  lemma {:induction false} RemoveAppended(fields: seq<string>, field: string)
    requires field !in fields
    ensures Remove(fields + [field], field) == fields
  {
    if fields == [] {
      assert [field][1..] == [];
    } else {
      assert (fields + [field])[1..] == fields[1..] + [field];
      RemoveAppended(fields[1..], field);
    }
  }

  /** The filter keeps order and multiplicity: filtering a concatenation
      filters each part, and one field is kept exactly when it is not the
      one removed. */
  lemma {:induction false} RemoveAppend(a: seq<string>, b: seq<string>, field: string, f: string)
    ensures Remove(a + b, field) == Remove(a, field) + Remove(b, field)
    ensures Remove([f], field) == if f == field then [] else [f]
    decreases |a|
  {
    if a == [] {
      assert a + b == b;
    } else {
      assert (a + b)[1..] == a[1..] + b;
      RemoveAppend(a[1..], b, field, f);
    }
  }

  // ---------------------------------------------------------------------
  // The registry.

  /** The client state the registry operations read and write: the formats
      by key, the selected format key (the profile's `format`), the
      template shown (the format looked up under that key, None when the
      lookup found nothing), the draft, and whether the dialog is open. */
  datatype Editor = Editor(
    formats: map<string, FormatTemplate>,
    selected: string,
    template: Option<FormatTemplate>,
    draft: Draft,
    dialogOpen: bool)

  /** The state the client starts in. */
  const Initial := Editor(DefaultFormats, "chumba", Some(Chumba), EmptyDraft, false)

  /** `formatTemplates[key]` is truthy: a format has that key, or it names a
      property every object inherits. */
  predicate Taken(formats: map<string, FormatTemplate>, key: string) {
    key in formats || key in InheritedNames
  }

  datatype AddError = IncompleteFormat | DuplicateKey

  /** Adds the draft as a format: rejected when its key, title or template
      is empty, then when the key is taken; otherwise the format is stored
      under the key, the draft is reset and the dialog closes. */
  function AddFormat(e: Editor): (r: Result<Editor, AddError>)
    ensures r == Err(IncompleteFormat) <==> e.draft.key == "" || e.draft.title == "" || e.draft.template == ""
    ensures r == Err(DuplicateKey) <==>
              e.draft.key != "" && e.draft.title != "" && e.draft.template != "" && Taken(e.formats, e.draft.key)
    ensures r.Ok? ==>
              e.draft.key !in e.formats &&
              r.value.formats.Keys == e.formats.Keys + {e.draft.key} &&
              r.value.formats[e.draft.key].title == e.draft.title &&
              r.value.formats[e.draft.key].requiredFields == e.draft.requiredFields &&
              r.value.formats[e.draft.key].optionalFields == e.draft.optionalFields &&
              r.value.formats[e.draft.key].template == e.draft.template &&
              (forall k | k in e.formats :: r.value.formats[k] == e.formats[k]) &&
              r.value.draft == EmptyDraft && !r.value.dialogOpen &&
              r.value.selected == e.selected && r.value.template == e.template
  {
    var d := e.draft;
    if d.key == "" || d.title == "" || d.template == "" then Err(IncompleteFormat)
    else if Taken(e.formats, d.key) then Err(DuplicateKey)
    else
      Ok(e.(formats := e.formats[d.key := FormatTemplate(d.title, d.requiredFields, d.optionalFields, d.template)],
            draft := EmptyDraft,
            dialogOpen := false))
  }

  datatype DeleteError = DefaultFormat | NoSuchFormat

  /** Deletes the format `key` once the user has `confirmed`.  The two
      default formats are refused.  A key with no format and no inherited
      property fails reading the format's title for the confirmation.
      When the deleted format was the selected one, `chumba` is selected
      and its template shown. */
  function DeleteFormat(e: Editor, key: string, confirmed: bool): (r: Result<Editor, DeleteError>)
    ensures r == Err(DefaultFormat) <==> key == "chumba" || key == "stake"
    ensures r == Err(NoSuchFormat) <==> key != "chumba" && key != "stake" && !Taken(e.formats, key)
    ensures r.Ok? && !confirmed ==> r.value == e
    ensures r.Ok? && confirmed ==>
              r.value.formats == e.formats - {key} &&
              r.value.draft == e.draft && r.value.dialogOpen == e.dialogOpen &&
              (if e.selected == key
               then r.value.selected == "chumba" &&
                    r.value.template == (if "chumba" in e.formats then Some(e.formats["chumba"]) else None)
               else r.value.selected == e.selected && r.value.template == e.template)
  {
    if key == "chumba" || key == "stake" then Err(DefaultFormat)
    else if !Taken(e.formats, key) then Err(NoSuchFormat)
    else if !confirmed then Ok(e)
    else
      var formats := e.formats - {key};
      if e.selected == key
      then Ok(e.(formats := formats, selected := "chumba",
                 template := if "chumba" in e.formats then Some(e.formats["chumba"]) else None))
      else Ok(e.(formats := formats))
  }

  /** The registry invariant: both default formats are present, the
      selected key has a format, and the template shown is that format. */
  predicate Valid(e: Editor) {
    "chumba" in e.formats && "stake" in e.formats &&
    e.selected in e.formats && e.template == Some(e.formats[e.selected])
  }

  lemma InitialValid()
    ensures Valid(Initial)
  {
  }

  /** Adding a format keeps the registry invariant. */
  lemma AddKeepsValid(e: Editor)
    requires Valid(e) && AddFormat(e).Ok?
    ensures Valid(AddFormat(e).value)
  {
  }

  /** Deleting a format keeps the registry invariant: in particular the
      default formats are never removed, and deleting the selected format
      falls back to `chumba`. */
  lemma DeleteKeepsValid(e: Editor, key: string, confirmed: bool)
    requires Valid(e) && DeleteFormat(e, key, confirmed).Ok?
    ensures Valid(DeleteFormat(e, key, confirmed).value)
  {
  }

  /** In a valid registry an added format can be deleted again, which
      restores the formats. */
  lemma AddThenDelete(e: Editor)
    requires Valid(e) && AddFormat(e).Ok?
    ensures DeleteFormat(AddFormat(e).value, e.draft.key, true).Ok?
    ensures DeleteFormat(AddFormat(e).value, e.draft.key, true).value.formats == e.formats
  {
    var e' := AddFormat(e).value;
    assert e'.formats - {e.draft.key} == e.formats;
  }
}
