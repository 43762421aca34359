/** The read-only preview of a completed form: a title, every form-data
    entry with its label and rendered value, the agreement's paragraphs and,
    when the agreement screen produced them, the signatures. */
module FormPreview {
  import opened Common
  import opened JsObject
  import opened Values
  import opened FieldLabel
  import opened AgreementScreen
  import opened SignatureData

  /** A party card in a participants or releasors list. */
  datatype PartyCard = PartyCard(heading: string, name: string, email: string)

  /** What `renderValue` shows for one entry. */
  datatype Shown =
    | PartyCards(cards: seq<PartyCard>)
    | ReleaseeCard(name: string, email: string)
    | IdImage(src: string)
    | Tick(yes: bool)
    | NotSpecified
    | Plain(text: string)

  /** `{p.role || title} #{index + 1}` over the list, with the name as first
      and last name side by side. */
  function Cards(ps: seq<Party>, title: string): (r: seq<PartyCard>)
    ensures |r| == |ps|
    ensures forall i :: 0 <= i < |ps| ==>
      r[i] == PartyCard((if ps[i].role != "" then ps[i].role else title) + " #" + NatToString(i + 1),
                        ps[i].firstName + " " + ps[i].lastName, ps[i].email)
  {
    seq(|ps|, i requires 0 <= i < |ps| =>
      PartyCard((if ps[i].role != "" then ps[i].role else title) + " #" + NatToString(i + 1),
                ps[i].firstName + " " + ps[i].lastName, ps[i].email))
  }

  /** `typeof value === 'object' && value !== null` */
  predicate IsObject(v: Snapshot) {
    v.File? || v.List? || v.Record?
  }

  /** `renderValue(key, value)`. A releasee that is not a party record is an
      object all the same and shows its `name` property, if it has one. */
  function RenderValue(key: string, v: Snapshot): (r: Shown)
    ensures r.PartyCards? <==> (key == "participants" || key == "releasors") && v.List?
    ensures r.PartyCards? ==>
      r.cards == Cards(v.items, if key == "releasors" then "Releasor" else "Participant")
    ensures r.ReleaseeCard? <==> key == "releasee" && IsObject(v)
    ensures r == ReleaseeCard(v.party.name, v.party.email) <== key == "releasee" && v.Record?
    ensures r.IdImage? <==> key == "idPhoto" && v.File? && v.file.dataUrl != ""
    ensures r.Tick? <==> v.Bool?
    ensures r.NotSpecified? <==> v.Undefined? || v.Null? || v == Text("")
    ensures r.Plain? ==> r.text == JsString(v) && Truthy(v)
  {
    if (key == "participants" || key == "releasors") && v.List? then
      PartyCards(Cards(v.items, if key == "releasors" then "Releasor" else "Participant"))
    else if key == "releasee" && IsObject(v) then
      match v
      case Record(p) => ReleaseeCard(p.name, p.email)
      case File(f) => ReleaseeCard(f.name, "")
      case _ => ReleaseeCard("", "")
    else if key == "idPhoto" && v.File? && v.file.dataUrl != "" then IdImage(v.file.dataUrl)
    else if v.Bool? then Tick(v.b)
    else if !Truthy(v) then NotSpecified
    else Plain(JsString(v))
  }

  datatype DetailRow = DetailRow(caption: string, shown: Shown)

  /** The details section: every entry, in order, none left out. */
  function Details(d: Obj<Snapshot>): (r: seq<DetailRow>)
    ensures |r| == |d|
    ensures forall i :: 0 <= i < |d| ==>
      r[i] == DetailRow(FormatFieldLabel(d[i].key) + ":", RenderValue(d[i].key, d[i].value))
  {
    seq(|d|, i requires 0 <= i < |d| =>
      DetailRow(FormatFieldLabel(d[i].key) + ":", RenderValue(d[i].key, d[i].value)))
  }

  datatype SignatureTile = SignatureTile(caption: string, src: string)
  datatype SignatureList = SignatureList(tiles: seq<SignatureTile>, date: string)

  /** `renderSignatures`: shown only when the signatures object has a
      `signatures` list, which is the agreement screen's payload; an empty
      list is still an array and shows an empty section with its date. */
  function RenderSignatures(s: Stored): (r: Option<SignatureList>)
    ensures r.Some? <==> s.FromAgreement?
    ensures r.Some? ==> r.value.date == s.agreement.date && |r.value.tiles| == |s.agreement.signatures|
    ensures r.Some? ==> forall i :: 0 <= i < |r.value.tiles| ==>
      var sig := s.agreement.signatures[i];
      r.value.tiles[i] ==
        SignatureTile(if sig.party.role != "" then sig.party.role else "Participant " + NatToString(i + 1), sig.signature)
  {
    match s
    case FromAgreement(p) =>
      Some(SignatureList(
        seq(|p.signatures|, i requires 0 <= i < |p.signatures| =>
          SignatureTile(if p.signatures[i].party.role != "" then p.signatures[i].party.role
                        else "Participant " + NatToString(i + 1), p.signatures[i].signature)),
        p.date))
    case _ => None
  }

  /** `t('agreements.<type>.title', { defaultValue: formType })`, where
      `translation` is `None` when the key is missing. */
  function Title(formType: string, translation: Option<string>): (r: string)
    ensures translation.None? ==> r == formType
    ensures translation.Some? ==> r == translation.value
  {
    translation.GetOr(formType)
  }

  datatype Preview = Preview(title: string, details: seq<DetailRow>, agreement: seq<string>,
                             signatures: Option<SignatureList>)

  /** The whole preview. `paragraphs` are the translations of the agreement's
      paragraph keys, as `AgreementParagraphs` reads them. */
  method RenderPreview(formType: string, d: Obj<Snapshot>, s: Stored, translation: Option<string>,
                       paragraphs: seq<string>)
    returns (r: Preview)
    ensures r.title == Title(formType, translation)
    ensures r.details == Details(d)
    ensures |r.agreement| <= |paragraphs| && r.agreement == paragraphs[..|r.agreement|]
    ensures forall i :: 0 <= i < |r.agreement| ==> r.agreement[i] != ""
    ensures |r.agreement| < |paragraphs| ==> paragraphs[|r.agreement|] == ""
    ensures r.signatures == RenderSignatures(s)
  {
    var agreement := AgreementParagraphs(paragraphs);
    r := Preview(Title(formType, translation), Details(d), agreement, RenderSignatures(s));
  }
}
