/** The values the form screens pass around.

    A participant record is a mutable JavaScript object that several screens
    share by reference, so it is a class (`Participant`) whose `View` is the
    record's current contents (`Party`). A form-data entry's value is one of
    the shapes the screens store (`JsValue`), parameterised by how a
    participant is held: live objects while the form is being edited, frozen
    `Party` records when a screen or the PDF reads them. `FormState` is a
    React state cell holding a form-data object. */
module Values {
  import opened Common
  import opened JsObject

  // ---------------------------------------------------------------- parties

  /** A participant record; `""` stands for a property that is absent. */
  datatype Party = Party(firstName: string, lastName: string, email: string, role: string, name: string)

  /** `{ firstName: '', lastName: '', email: '', role }` */
  function Blank(role: string): Party {
    Party("", "", "", role, "")
  }

  /** The properties the participant editors write. */
  datatype PartyField = FirstName | LastName | Email | Role

  function Get(p: Party, f: PartyField): string {
    match f
    case FirstName => p.firstName
    case LastName => p.lastName
    case Email => p.email
    case Role => p.role
  }

  /** `p[f] = v` on a copy */
  function WithField(p: Party, f: PartyField, v: string): (r: Party)
    ensures Get(r, f) == v
    ensures forall g :: g != f ==> Get(r, g) == Get(p, g)
    ensures r.name == p.name
  {
    match f
    case FirstName => p.(firstName := v)
    case LastName => p.(lastName := v)
    case Email => p.(email := v)
    case Role => p.(role := v)
  }

  /** A participant object on the heap. */
  class Participant {
    var firstName: string
    var lastName: string
    var email: string
    var role: string
    var name: string

    function View(): Party
      reads this
    {
      Party(firstName, lastName, email, role, name)
    }

    constructor (p: Party)
      ensures View() == p
    {
      firstName, lastName, email, role, name := p.firstName, p.lastName, p.email, p.role, p.name;
    }

    /** `participant[f] = v`, in place */
    method Set(f: PartyField, v: string)
      modifies this
      ensures View() == WithField(old(View()), f, v)
    {
      match f {
        case FirstName => firstName := v;
        case LastName => lastName := v;
        case Email => email := v;
        case Role => role := v;
      }
    }
  }

  // ----------------------------------------------------------------- values

  /** `{ name, type, dataUrl }`, as a file input's change handler stores it. */
  datatype FileRecord = FileRecord(name: string, mime: string, dataUrl: string)

  /** The shapes a form-data value takes. Number inputs deliver strings, so
      there is no number case. */
  datatype JsValue<P> =
    | Undefined
    | Null
    | Bool(b: bool)
    | Text(s: string)
    | File(file: FileRecord)
    | List(items: seq<P>)
    | Record(party: P)

  type Value = JsValue<Participant>
  type Snapshot = JsValue<Party>

  /** JavaScript truthiness: objects and arrays are truthy, `''`, `false`,
      `null` and `undefined` are not. */
  predicate Truthy<P>(v: JsValue<P>) {
    match v
    case Undefined => false
    case Null => false
    case Bool(b) => b
    case Text(s) => s != ""
    case _ => true
  }

  function Repeat(s: string, n: nat, sep: string): (r: string)
    ensures n == 0 ==> r == ""
    ensures n == 1 ==> r == s
  {
    if n == 0 then "" else if n == 1 then s else Repeat(s, n - 1, sep) + sep + s
  }

  /** `String(v)` */
  function JsString<P>(v: JsValue<P>): string {
    match v
    case Undefined => "undefined"
    case Null => "null"
    case Bool(b) => if b then "true" else "false"
    case Text(s) => s
    case File(_) => "[object Object]"
    case List(items) => Repeat("[object Object]", |items|, ",")
    case Record(_) => "[object Object]"
  }

  /** `sanitizeString`: `null` and `undefined` become `''`, everything else
      goes through `String`. */
  function Sanitize<P>(v: JsValue<P>): (r: string)
    ensures (v.Undefined? || v.Null?) ==> r == ""
    ensures v.Text? ==> r == v.s
    ensures v.Bool? ==> r == (if v.b then "true" else "false")
    ensures (v.File? || v.Record?) ==> r == "[object Object]"
  {
    if v.Undefined? || v.Null? then "" else JsString(v)
  }

  // ------------------------------------------------------------ snapshots

  function ObjectsOf(v: Value): set<Participant> {
    match v
    case List(ps) => set p | p in ps
    case Record(p) => {p}
    case _ => {}
  }

  /** The current records of a list of participant objects. */
  function Views(ps: seq<Participant>): (r: seq<Party>)
    reads ps
    ensures |r| == |ps| && forall i :: 0 <= i < |ps| ==> r[i] == ps[i].View()
  {
    if ps == [] then [] else [ps[0].View()] + Views(ps[1..])
  }

  function FreezeValue(v: Value): (r: Snapshot)
    reads ObjectsOf(v)
  {
    match v
    case Undefined => Undefined
    case Null => Null
    case Bool(b) => Bool(b)
    case Text(s) => Text(s)
    case File(f) => File(f)
    case List(ps) => List(Views(ps))
    case Record(p) => Record(p.View())
  }

  /** Every participant object a form-data object refers to. */
  function Footprint(d: Obj<Value>): (r: set<Participant>)
    ensures forall i :: 0 <= i < |d| ==> ObjectsOf(d[i].value) <= r
  {
    if d == [] then {} else ObjectsOf(d[0].value) + Footprint(d[1..])
  }

  /** What a reader of the form data sees now: every participant object
      replaced by its current record. */
  function Freeze(d: Obj<Value>): (r: Obj<Snapshot>)
    reads Footprint(d)
    ensures |r| == |d|
    ensures forall i :: 0 <= i < |d| ==> r[i] == Entry(d[i].key, FreezeValue(d[i].value))
  {
    if d == [] then [] else [Entry(d[0].key, FreezeValue(d[0].value))] + Freeze(d[1..])
  }

  /** `formData.participants || []`, for the array shape the editors write. */
  function ParticipantsOf(d: Obj<Value>): seq<Participant> {
    var v := Lookup(d, "participants");
    if v.Some? && v.value.List? then v.value.items else []
  }

  // ------------------------------------------------------------ state cell

  /** A `useState` cell holding a form-data object. */
  class FormState {
    var data: Obj<Value>

    constructor (init: Obj<Value>)
      ensures data == init
    {
      data := init;
    }

    /** `setFormData(prev => ({ ...prev, [k]: v }))` */
    method Update(k: string, v: Value)
      modifies this
      ensures data == Put(old(data), k, v)
    {
      data := Put(data, k, v);
    }

    /** `setFormData(d)` */
    method Replace(d: Obj<Value>)
      modifies this
      ensures data == d
    {
      data := d;
    }
  }
}
