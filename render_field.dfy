/** How a step's field is rendered and how its change handlers update the
    builder's form data. */
module RenderField {
  import opened Common
  import opened JsObject
  import opened Values
  import opened FormSteps

  /** The component a field type is rendered with. */
  datatype Widget = ParticipantsWidget | CheckboxWidget | TextareaWidget | FileWidget | DefaultWidget

  /** The `switch (field.type)`: four types have their own component, every
      other type (text, email, date, number, ...) the default input. */
  function WidgetFor(kind: string): (w: Widget)
    ensures w == ParticipantsWidget <==> kind == "participants"
    ensures w == CheckboxWidget <==> kind == "checkbox"
    ensures w == TextareaWidget <==> kind == "textarea"
    ensures w == FileWidget <==> kind == "file"
    ensures w == DefaultWidget <==> kind !in {"participants", "checkbox", "textarea", "file"}
  {
    match kind
    case "participants" => ParticipantsWidget
    case "checkbox" => CheckboxWidget
    case "textarea" => TextareaWidget
    case "file" => FileWidget
    case _ => DefaultWidget
  }

  /** `formData[field.id]`: the stored value, `undefined` when absent. */
  function FieldValue(d: Obj<Value>, field: Field): (r: Value)
    ensures !HasKey(d, field.id) ==> r == Undefined
    ensures HasKey(d, field.id) ==> exists i :: 0 <= i < |d| && d[i] == Entry(field.id, r)
  {
    Lookup(d, field.id).GetOr(Undefined)
  }

  /** A file the user picked: its name and MIME type. */
  datatype PickedFile = PickedFile(name: string, mime: string)

  /** The value a file change stores: `null` when the input was cleared,
      otherwise the picked file's name and type with the reader's data URL. */
  function FileValue(file: Option<PickedFile>, dataUrl: string): (r: Value)
    ensures file.None? <==> r == Null
    ensures file.Some? ==> r == File(FileRecord(file.value.name, file.value.mime, dataUrl))
  {
    if file.None? then Null else File(FileRecord(file.value.name, file.value.mime, dataUrl))
  }

  /** `handleInputChange(fieldId, value)` */
  method HandleInputChange(state: FormState, fieldId: string, value: Value)
    modifies state
    ensures state.data == Put(old(state.data), fieldId, value)
  {
    state.Update(fieldId, value);
  }

  /** `handleFileChange(fieldId, file)`; the reader's asynchronous result is
      the `dataUrl` parameter. */
  method HandleFileChange(state: FormState, fieldId: string, file: Option<PickedFile>, dataUrl: string)
    modifies state
    ensures state.data == Put(old(state.data), fieldId, FileValue(file, dataUrl))
  {
    if file.Some? {
      state.Update(fieldId, File(FileRecord(file.value.name, file.value.mime, dataUrl)));
    } else {
      state.Update(fieldId, Null);
    }
  }

  /** After a change the field renders the new value and every other field
      keeps rendering what it did. */
  lemma ChangeShowsInField(d: Obj<Value>, field: Field, v: Value, other: Field)
    requires UniqueKeys(d)
    requires other.id != field.id
    ensures FieldValue(Put(d, field.id, v), field) == v
    ensures FieldValue(Put(d, field.id, v), other) == FieldValue(d, other)
    ensures UniqueKeys(Put(d, field.id, v))
  {
    PutLookupSame(d, field.id, v);
    PutKeepsUnique(d, field.id, v);
    PutLookupOther(d, field.id, v, other.id);
  }
}
