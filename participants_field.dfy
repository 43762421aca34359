/** The participants editor of a form step: a list of participant objects
    under the form data's `participants` key, one of them active, with add
    and remove bounded by the descriptor's `min` and `max`. */
module ParticipantsField {
  import opened Common
  import opened JsObject
  import opened Values
  import opened FormSteps

  /** `field.roleOptions[0]?.value || 'Participant'` */
  function DefaultRole(spec: ParticipantsSpec): (r: string)
    ensures r != ""
    ensures |spec.roleOptions| > 0 && spec.roleOptions[0].value != "" ==> r == spec.roleOptions[0].value
    ensures (|spec.roleOptions| == 0 || spec.roleOptions[0].value == "") ==> r == "Participant"
  {
    if |spec.roleOptions| > 0 && spec.roleOptions[0].value != "" then spec.roleOptions[0].value else "Participant"
  }

  /** `participants.filter((_, i) => i !== index)` */
  function Without<T>(ps: seq<T>, index: int): (r: seq<T>)
    ensures 0 <= index < |ps| ==> |r| == |ps| - 1
    ensures 0 <= index < |ps| ==> forall i :: 0 <= i < |r| ==> r[i] == ps[if i < index then i else i + 1]
    ensures !(0 <= index < |ps|) ==> r == ps
  {
    if 0 <= index < |ps| then ps[..index] + ps[index + 1..] else ps
  }

  /** The add button is shown while the list is shorter than `max`
      (no limit when `max` is falsy). */
  predicate CanAdd(spec: ParticipantsSpec, len: nat) {
    spec.max == 0 || len < spec.max
  }

  /** Remove buttons are shown while the list is longer than `min`. */
  predicate CanRemove(spec: ParticipantsSpec, len: nat) {
    len > spec.min
  }

  class ParticipantsEditor {
    const spec: ParticipantsSpec
    const form: FormState
    var active: int

    /** The participant objects the editor shows. */
    function Participants(): seq<Participant>
      reads form
    {
      ParticipantsOf(form.data)
    }

    constructor (spec: ParticipantsSpec, form: FormState)
      ensures this.spec == spec && this.form == form && active == 0
    {
      this.spec := spec;
      this.form := form;
      active := 0;
    }

    /** `handleInputChange(fieldId, value)` */
    method HandleInputChange(fieldId: string, value: Value)
      modifies form
      ensures form.data == Put(old(form.data), fieldId, value)
    {
      form.Update(fieldId, value);
    }

    /** `handleParticipantChange(index, fieldName, value)`: the array is
        copied but the participant object itself is written in place. An
        index with no participant makes the source throw before any state
        changes. */
    method HandleParticipantChange(index: int, f: PartyField, value: string)
      modifies form, set p | p in ParticipantsOf(form.data)
      ensures !(0 <= index < |old(Participants())|) ==>
        form.data == old(form.data) && forall p :: p in old(Participants()) ==> p.View() == old(p.View())
      ensures 0 <= index < |old(Participants())| ==>
        && form.data == Put(old(form.data), "participants", List(old(Participants())))
        && Participants() == old(Participants())
        && Participants()[index].View() == WithField(old(Participants()[index].View()), f, value)
        && forall p :: p in old(Participants()) && p != old(Participants())[index] ==> p.View() == old(p.View())
    {
      var ps := Participants();
      if 0 <= index < |ps| {
        ps[index].Set(f, value);
        form.Update("participants", List(ps));
        PutLookupSame(old(form.data), "participants", List(ps));
      }
    }

    /** `addParticipant()`: appends one blank record with the default role
        and makes it the active one. There is no `max` check here; the
        button's visibility (`CanAdd`) is the only guard. */
    method AddParticipant() returns (added: Participant)
      modifies form, this
      ensures fresh(added) && added.View() == Blank(DefaultRole(spec))
      ensures form.data == Put(old(form.data), "participants", List(old(Participants()) + [added]))
      ensures Participants() == old(Participants()) + [added]
      ensures active == |old(Participants())|
    {
      var ps := Participants();
      added := new Participant(Blank(DefaultRole(spec)));
      form.Update("participants", List(ps + [added]));
      PutLookupSame(old(form.data), "participants", List(ps + [added]));
      active := |ps + [added]| - 1;
    }

    /** `removeParticipant(index)`: nothing happens at or below `min`;
        otherwise entry `index` is dropped and the one before it (or the
        first) becomes active. */
    method RemoveParticipant(index: int)
      modifies form, this
      ensures |old(Participants())| <= spec.min ==> form.data == old(form.data) && active == old(active)
      ensures |old(Participants())| > spec.min ==>
        && form.data == Put(old(form.data), "participants", List(Without(old(Participants()), index)))
        && Participants() == Without(old(Participants()), index)
        && active == Max(0, index - 1)
    {
      var ps := Participants();
      if |ps| <= spec.min {
        return;
      }
      form.Update("participants", List(Without(ps, index)));
      PutLookupSame(old(form.data), "participants", List(Without(ps, index)));
      active := Max(0, index - 1);
    }
  }

  // ------------------------------------------------- actions the UI offers

  /** What a user can do in the editor: press add, press the remove button
      of entry `i`, or pick entry `i`. */
  datatype EditorAction = Add | Remove(i: int) | Pick(i: int)

  /** Whether the editor currently shows the control for `a`. */
  predicate Offered(spec: ParticipantsSpec, len: nat, a: EditorAction) {
    match a
    case Add => CanAdd(spec, len)
    case Remove(i) => CanRemove(spec, len) && 0 <= i < len
    case Pick(i) => 0 <= i < len
  }

  /** The list length and active index after `a`, as the methods above
      change them. */
  function After(spec: ParticipantsSpec, len: nat, active: int, a: EditorAction): (nat, int) {
    match a
    case Add => (len + 1, len)
    case Remove(i) => if len <= spec.min then (len, active) else (len - 1, Max(0, i - 1))
    case Pick(i) => (len, i)
  }

  /** Run the actions in turn, skipping any whose control is not shown. */
  function Run(spec: ParticipantsSpec, len: nat, active: int, acts: seq<EditorAction>): (nat, int)
    decreases |acts|
  {
    if acts == [] then (len, active)
    else if Offered(spec, len, acts[0]) then
      var next := After(spec, len, active, acts[0]);
      Run(spec, next.0, next.1, acts[1..])
    else Run(spec, len, active, acts[1..])
  }

  /** Through the buttons the editor shows, the list stays within
      `[min, max]` and the active index always names an entry. */
  lemma {:induction false} OfferedActionsKeepBounds(spec: ParticipantsSpec, len: nat, active: int, acts: seq<EditorAction>)
    requires 1 <= spec.min <= spec.max
    requires spec.min <= len <= spec.max && 0 <= active < len
    ensures var r := Run(spec, len, active, acts); spec.min <= r.0 <= spec.max && 0 <= r.1 < r.0
    decreases |acts|
  {
    if acts != [] {
      if Offered(spec, len, acts[0]) {
        var next := After(spec, len, active, acts[0]);
        OfferedActionsKeepBounds(spec, next.0, next.1, acts[1..]);
      } else {
        OfferedActionsKeepBounds(spec, len, active, acts[1..]);
      }
    }
  }
}
