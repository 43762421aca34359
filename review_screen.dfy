/** The review screen: a read-only listing of the form data, and an edit
    mode working on a buffer (`editedData`) that Save hands back to the
    controller and Cancel resets. */
module ReviewScreen {
  import opened Common
  import opened JsObject
  import opened Values
  import opened FieldLabel
  import RenderField

  // --------------------------------------------------------------- labels

  /** `formatFieldLabel(key)`: the type's translation, else the common
      translation, else `''`; a non-empty result wins, an empty one falls
      back to the spaced and capitalised key. `None` is a missing
      translation. */
  function ReviewLabel(typeText: Option<string>, commonText: Option<string>, key: string): (r: string)
    ensures typeText.Some? && typeText.value != "" ==> r == typeText.value
    ensures typeText.None? && commonText.Some? && commonText.value != "" ==> r == commonText.value
    ensures typeText.None? && commonText.None? ==> r == FormatFieldLabel(key)
    ensures typeText == Some("") ==> r == FormatFieldLabel(key)
    ensures typeText.None? && commonText == Some("") ==> r == FormatFieldLabel(key)
  {
    var translated := typeText.GetOr(commonText.GetOr(""));
    if translated != "" then translated else FormatFieldLabel(key)
  }

  // --------------------------------------------------------------- listing

  /** An entry is listed unless its value is `null`, `undefined` or an
      empty array. */
  predicate Listed(v: Snapshot) {
    !v.Null? && !v.Undefined? && !(v.List? && |v.items| == 0)
  }

  function ListedEntries(d: Obj<Snapshot>): (r: Obj<Snapshot>)
    ensures forall e :: e in r ==> e in d && Listed(e.value)
    ensures forall e :: e in d && Listed(e.value) ==> e in r
    ensures |r| <= |d|
  {
    if d == [] then [] else (if Listed(d[0].value) then [d[0]] else []) + ListedEntries(d[1..])
  }

  /** The listing keeps the order of the entries. */
  lemma {:induction false} ListedEntriesAppend(a: Obj<Snapshot>, b: Obj<Snapshot>)
    ensures ListedEntries(a + b) == ListedEntries(a) + ListedEntries(b)
    decreases |a|
  {
    if a == [] {
      assert a + b == b;
    } else {
      assert (a + b)[0] == a[0];
      assert (a + b)[1..] == a[1..] + b;
      ListedEntriesAppend(a[1..], b);
    }
  }

  predicate GroupKey(key: string) {
    key in {"participants", "releasors", "additionalParticipants", "partyA", "partyB"}
  }

  /** A participant card: its heading, first name, last name and email. */
  datatype Card = Card(heading: string, firstName: string, lastName: string, email: string)

  /** `${p.role || groupTitle} #${index + 1}` */
  function Heading(p: Party, groupTitle: string, index: nat): string {
    (if p.role != "" then p.role else groupTitle) + " #" + NatToString(index + 1)
  }

  function Cards(ps: seq<Party>, groupTitle: string): (r: seq<Card>)
    ensures |r| == |ps|
    ensures forall i :: 0 <= i < |ps| ==>
      r[i] == Card(Heading(ps[i], groupTitle, i), ps[i].firstName, ps[i].lastName, ps[i].email)
  {
    seq(|ps|, i requires 0 <= i < |ps| =>
      Card(Heading(ps[i], groupTitle, i), ps[i].firstName, ps[i].lastName, ps[i].email))
  }

  /** What `renderValue` shows for an entry. */
  datatype Rendered =
    | Group(title: string, cards: seq<Card>)
    | NoGroup
    | Image(dataUrl: string, name: string)
    | YesNo(text: string)
    | NotSpecified
    | Plain(text: string)

  /** `renderParticipantGroup`: nothing for an empty list. */
  function ParticipantGroup(ps: seq<Party>, title: string): (r: Rendered)
    ensures ps == [] <==> r == NoGroup
    ensures ps != [] ==> r == Group(title, Cards(ps, title))
  {
    if ps == [] then NoGroup else Group(title, Cards(ps, title))
  }

  /** `renderValue(key, value)`; `groupLabel` is the key's label. */
  function RenderValue(key: string, groupLabel: string, v: Snapshot): (r: Rendered)
    ensures GroupKey(key) && v.List? ==> r == ParticipantGroup(v.items, groupLabel)
    ensures key == "releasee" && v.Record? ==> r == Group("Releasee", Cards([v.party], "Releasee"))
    ensures key == "idPhoto" && v.File? && v.file.dataUrl != "" ==> r == Image(v.file.dataUrl, v.file.name)
    ensures !(GroupKey(key) && v.List?) && v.Bool? ==> r == YesNo(if v.b then "✓ Yes" else "✗ No")
    ensures !(GroupKey(key) && v.List?) && !v.Bool? && !Truthy(v) ==> r == NotSpecified
    ensures r.Plain? ==> Truthy(v) && r.text == JsString(v)
    ensures (!(GroupKey(key) && v.List?) && !(key == "releasee" && v.Record?)
             && !(key == "idPhoto" && v.File? && v.file.dataUrl != "") && !v.Bool? && Truthy(v))
      ==> r == Plain(JsString(v))
  {
    if GroupKey(key) && v.List? then ParticipantGroup(v.items, groupLabel)
    else if key == "releasee" && v.Record? then ParticipantGroup([v.party], "Releasee")
    else if key == "idPhoto" && v.File? && v.file.dataUrl != "" then Image(v.file.dataUrl, v.file.name)
    else if v.Bool? then YesNo(if v.b then "✓ Yes" else "✗ No")
    else if !Truthy(v) then NotSpecified
    else Plain(JsString(v))
  }

  /** Because empty arrays are filtered out first, a listed entry never
      renders as an empty participant group, and an empty text renders as
      "Not specified". */
  lemma ListedEntriesRenderSomething(d: Obj<Snapshot>, key: string, groupLabel: string)
    ensures forall e :: e in ListedEntries(d) ==> RenderValue(e.key, groupLabel, e.value) != NoGroup
    ensures Entry(key, Text("")) in ListedEntries(d) ==> RenderValue(key, groupLabel, Text("")) == NotSpecified
  {
  }

  // --------------------------------------------------------------- editing

  /** The input an entry gets in edit mode. The boolean test reads the
      controller's `formData`, not the buffer. */
  datatype Editor = ParticipantEditors | PhotoInput | CheckboxInput | TextareaInput | TextInput

  function EditorFor(key: string, formValue: Option<Snapshot>): (r: Editor)
    ensures key == "participants" <==> r == ParticipantEditors
    ensures key != "participants" ==> (key == "idPhoto" <==> r == PhotoInput)
    ensures key != "participants" && key != "idPhoto" ==>
      (formValue.Some? && formValue.value.Bool? <==> r == CheckboxInput)
    ensures key != "participants" && key != "idPhoto" && !(formValue.Some? && formValue.value.Bool?) ==>
      ((Contains(key, "Terms") || Contains(key, "Clauses") || Contains(key, "purpose") || Contains(key, "description"))
       <==> r == TextareaInput)
    ensures r == CheckboxInput ==> formValue.Some? && formValue.value.Bool?
    ensures r == TextareaInput ==>
      Contains(key, "Terms") || Contains(key, "Clauses") || Contains(key, "purpose") || Contains(key, "description")
  {
    if key == "participants" then ParticipantEditors
    else if key == "idPhoto" then PhotoInput
    else if formValue.Some? && formValue.value.Bool? then CheckboxInput
    else if Contains(key, "Terms") || Contains(key, "Clauses") || Contains(key, "purpose") || Contains(key, "description")
    then TextareaInput
    else TextInput
  }

  /** `editedData[key] || []`, for the array shape the editors write. */
  function ListAt(d: Obj<Value>, key: string): seq<Participant> {
    var v := Lookup(d, key);
    if v.Some? && v.value.List? then v.value.items else []
  }

  class ReviewBuffer {
    /** The controller's form data, as passed in. */
    var formData: Obj<Value>
    var edited: Obj<Value>
    var isEditing: bool

    /** The entries on screen: the buffer while editing, else the data. */
    function Shown(): Obj<Value>
      reads this
    {
      if isEditing then edited else formData
    }

    constructor (d: Obj<Value>)
      ensures formData == d && edited == d && !isEditing
    {
      formData := d;
      edited := d;
      isEditing := false;
    }

    method HandleEdit()
      modifies this
      ensures isEditing && formData == old(formData) && edited == old(edited)
    {
      isEditing := true;
    }

    /** `handleSaveEdit`: the buffer goes to `onEdit` (the result), which
        makes it the controller's form data, and editing ends. */
    method HandleSaveEdit() returns (saved: Obj<Value>)
      modifies this
      ensures saved == old(edited) && formData == old(edited) && edited == old(edited) && !isEditing
    {
      saved := edited;
      formData := edited;
      isEditing := false;
    }

    /** `handleCancelEdit`: the buffer is reset to the form data and
        editing ends. */
    method HandleCancelEdit()
      modifies this
      ensures edited == old(formData) && formData == old(formData) && !isEditing
    {
      edited := formData;
      isEditing := false;
    }

    /** `handleInputChange(fieldId, value)` */
    method HandleInputChange(fieldId: string, value: Value)
      modifies this
      ensures edited == Put(old(edited), fieldId, value)
      ensures formData == old(formData) && isEditing == old(isEditing)
    {
      edited := Put(edited, fieldId, value);
    }

    /** `handleFileChange(fieldId, file)` in edit mode: the same value the
        builder's file input stores, written into the buffer. */
    method HandleFileChange(fieldId: string, file: Option<RenderField.PickedFile>, dataUrl: string)
      modifies this
      ensures edited == Put(old(edited), fieldId, RenderField.FileValue(file, dataUrl))
      ensures formData == old(formData) && isEditing == old(isEditing)
    {
      if file.Some? {
        HandleInputChange(fieldId, File(FileRecord(file.value.name, file.value.mime, dataUrl)));
      } else {
        HandleInputChange(fieldId, Null);
      }
    }

    /** `handleParticipantChange` as written: the array is copied but the
        participant object, which the controller's form data shares, is
        written in place. An index with no participant makes the source
        throw before any state changes. */
    method HandleParticipantChangeInPlace(index: int, f: PartyField, value: string, key: string)
      modifies this, set p | p in ListAt(edited, key)
      ensures formData == old(formData) && isEditing == old(isEditing)
      ensures !(0 <= index < |old(ListAt(edited, key))|) ==> edited == old(edited)
      ensures 0 <= index < |old(ListAt(edited, key))| ==>
        && edited == Put(old(edited), key, List(old(ListAt(edited, key))))
        && old(ListAt(edited, key))[index].View() == WithField(old(ListAt(edited, key)[index].View()), f, value)
        && forall i :: 0 <= i < |old(ListAt(edited, key))| && old(ListAt(edited, key))[i] != old(ListAt(edited, key))[index] ==>
             old(ListAt(edited, key))[i].View() == old(ListAt(edited, key)[i].View())
    {
      var ps := ListAt(edited, key);
      if 0 <= index < |ps| {
        ps[index].Set(f, value);
        edited := Put(edited, key, List(ps));
      }
    }

    /** `handleParticipantChange` with the edit made on a copy of the
        participant, so that the form data's objects stay as they were. */
    method HandleParticipantChange(index: int, f: PartyField, value: string, key: string)
      modifies this
      ensures formData == old(formData) && isEditing == old(isEditing)
      ensures !(0 <= index < |old(ListAt(edited, key))|) ==> edited == old(edited)
      ensures 0 <= index < |old(ListAt(edited, key))| ==>
        && |ListAt(edited, key)| == |old(ListAt(edited, key))|
        && Views(ListAt(edited, key)) == old(Views(ListAt(edited, key)))[index := WithField(old(ListAt(edited, key)[index].View()), f, value)]
    {
      var ps := ListAt(edited, key);
      if 0 <= index < |ps| {
        var updated := CopyWith(ps, index, WithField(ps[index].View(), f, value));
        edited := Put(edited, key, List(updated));
        PutLookupSame(old(edited), key, List(updated));
        assert ListAt(edited, key) == updated;
      }
    }
  }

  /** `[...participants]` with a fresh copy holding `changed` at `index`;
      the other objects are kept. */
  method CopyWith(ps: seq<Participant>, index: int, changed: Party) returns (updated: seq<Participant>)
    requires 0 <= index < |ps|
    ensures |updated| == |ps| && fresh(updated[index])
    ensures forall i :: 0 <= i < |ps| && i != index ==> updated[i] == ps[i]
    ensures Views(updated) == old(Views(ps))[index := changed]
  {
    ghost var before := Views(ps);
    var copy := new Participant(changed);
    assert Views(ps) == before;
    updated := ps[index := copy];
    ViewsUpdate(ps, index, copy);
  }

  /** Replacing one object of a list replaces its record and no other. */
  lemma ViewsUpdate(ps: seq<Participant>, i: int, p: Participant)
    requires 0 <= i < |ps|
    ensures Views(ps[i := p]) == Views(ps)[i := p.View()]
  {
    var u := ps[i := p];
    forall j | 0 <= j < |ps| ensures Views(u)[j] == Views(ps)[i := p.View()][j] {
      if j != i {
        assert u[j] == ps[j];
      }
    }
  }

  /** Editing a participant and then cancelling, as the screen is written:
      the form data still shows the edit. */
  method CancelKeepsParticipantEdit() returns (shown: Party)
    ensures shown.firstName == "Bob"
  {
    var p := new Participant(Blank("Releasor"));
    var screen := new ReviewBuffer([Entry("participants", List([p]))]);
    screen.HandleEdit();
    assert ListAt(screen.edited, "participants") == [p];
    screen.HandleParticipantChangeInPlace(0, FirstName, "Bob", "participants");
    screen.HandleCancelEdit();
    assert ListAt(screen.formData, "participants") == [p];
    shown := ListAt(screen.formData, "participants")[0].View();
  }

  /** The same with the copying edit: cancelling leaves the form data as
      it was. */
  method CancelDropsParticipantEdit() returns (shown: Party)
    ensures shown.firstName == ""
  {
    var p := new Participant(Blank("Releasor"));
    var screen := new ReviewBuffer([Entry("participants", List([p]))]);
    screen.HandleEdit();
    assert ListAt(screen.edited, "participants") == [p];
    screen.HandleParticipantChange(0, FirstName, "Bob", "participants");
    screen.HandleCancelEdit();
    assert ListAt(screen.formData, "participants") == [p];
    shown := ListAt(screen.formData, "participants")[0].View();
  }
}
