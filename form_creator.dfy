/** The controller of the document flow: the current screen, the chosen
    document type, the form data, the signatures, and the counter that tells
    the voice assistant a stage was completed.

    The catalog's default participant records are JavaScript objects created
    once, when the catalog module loads, and shared by every session of the
    page (`CatalogDefaults`). */
module FormCreator {
  import opened Common
  import opened JsObject
  import opened Values
  import opened FormSteps
  import opened AgreementScreen
  import opened SignatureScreen
  import opened SignatureData
  import opened MyTemplates
  import opened ParticipantsField

  datatype Step = Welcome | Builder | Review | Agreement | Signature | Donation | Export

  // ------------------------------------------------------------ seeding

  /** `defaultParticipants` of a catalog type's first-step participants
      field, when it has one. */
  function CatalogDefaultsOf(formType: string): (r: Option<seq<Party>>)
    ensures formType !in Catalog ==> r.None?
  {
    if formType in Catalog then
      var spec := FirstStepParticipants(Catalog[formType]);
      if spec.Some? then spec.value.defaults else None
    else None
  }

  /** The blank releasor and releasee a new form gets when the catalog has
      no defaults for it. */
  const DefaultPair: seq<Party> := [Blank("Releasor"), Blank("Releasee")]

  /** The records a new form's participants start as. */
  function SeedParties(formType: string): (r: seq<Party>)
    ensures StartsWith(formType, "custom_") || CatalogDefaultsOf(formType).None? ==> r == DefaultPair
    ensures !StartsWith(formType, "custom_") && CatalogDefaultsOf(formType).Some? ==>
      r == CatalogDefaultsOf(formType).value
  {
    if StartsWith(formType, "custom_") then DefaultPair
    else
      var d := CatalogDefaultsOf(formType);
      if d.Some? then d.value else DefaultPair
  }

  /** No catalog type is a custom type. */
  lemma CatalogTypesAreNotCustom(formType: string)
    requires formType in Catalog
    ensures !StartsWith(formType, "custom_")
  {
    CatalogShape();
    assert formType == "nda" || formType[..7][1] != 'u';
  }

  /** The defaults of the three catalog types. */
  lemma CatalogDefaultsByType()
    ensures CatalogDefaultsOf("content-release") == Some([Blank("Releasor"), Blank("Releasee")])
    ensures CatalogDefaultsOf("general-consent") == Some([Blank("Party A"), Blank("Party B")])
    ensures CatalogDefaultsOf("nda") == Some([Blank("Disclosing Party"), Blank("Receiving Party")])
  {
    CatalogShape();
    DescriptorsWellFormed();
  }

  lemma ContentReleaseIsNotCustom()
    ensures !StartsWith("content-release", "custom_")
  {
    assert "content-release"[..7][1] == 'o';
  }

  /** The catalog types seed their own two blank records; a custom or an
      unknown type gets a blank releasor and a blank releasee. Either way a
      new form starts with two participants. */
  lemma SeedsByType(formType: string)
    ensures formType == "content-release" ==> SeedParties(formType) == [Blank("Releasor"), Blank("Releasee")]
    ensures formType == "general-consent" ==> SeedParties(formType) == [Blank("Party A"), Blank("Party B")]
    ensures formType == "nda" ==> SeedParties(formType) == [Blank("Disclosing Party"), Blank("Receiving Party")]
    ensures formType !in Catalog ==> SeedParties(formType) == DefaultPair
    ensures |SeedParties(formType)| == 2
  {
    if formType in Catalog {
      CatalogTypesAreNotCustom(formType);
      CatalogShape();
      CatalogDefaultsByType();
    }
  }

  /** Fresh participant objects holding the given records. */
  method FreshParticipants(ps: seq<Party>) returns (r: seq<Participant>)
    ensures |r| == |ps|
    ensures forall i :: 0 <= i < |r| ==> fresh(r[i]) && r[i].View() == ps[i]
  {
    r := [];
    var i := 0;
    while i < |ps|
      invariant 0 <= i <= |ps| && |r| == i
      invariant forall k :: 0 <= k < i ==> fresh(r[k]) && r[k].View() == ps[k]
    {
      var p := new Participant(ps[i]);
      r := r + [p];
      i := i + 1;
    }
  }

  /** The objects hold these records. */
  predicate Holds(ps: seq<Participant>, records: seq<Party>)
    reads ps
  {
    |ps| == |records| && forall i :: 0 <= i < |ps| ==> ps[i].View() == records[i]
  }

  /** Fresh objects holding the records a type seeds. */
  method SeedObjects(formType: string) returns (r: seq<Participant>)
    ensures Holds(r, SeedParties(formType))
    ensures forall p :: p in r ==> fresh(p)
  {
    r := FreshParticipants(SeedParties(formType));
  }

  /** The catalog's default participant objects, one list per catalog
      type. */
  class CatalogDefaults {
    const contentRelease: seq<Participant>
    const generalConsent: seq<Participant>
    const nda: seq<Participant>

    /** The objects of a catalog type. */
    function Objects(formType: string): seq<Participant>
      requires formType in Catalog
    {
      if formType == "content-release" then contentRelease
      else if formType == "general-consent" then generalConsent
      else nda
    }

    constructor ()
      ensures Holds(contentRelease, SeedParties("content-release"))
      ensures Holds(generalConsent, SeedParties("general-consent"))
      ensures Holds(nda, SeedParties("nda"))
      ensures forall p :: p in contentRelease || p in generalConsent || p in nda ==> fresh(p)
    {
      var a := SeedObjects("content-release");
      var b := SeedObjects("general-consent");
      var c := SeedObjects("nda");
      contentRelease, generalConsent, nda := a, b, c;
    }
  }

  /** `ts[i]` is the first template with the id. */
  predicate FirstWithId(ts: seq<Template>, id: string, i: int) {
    0 <= i < |ts| && ts[i].id == Some(id) && forall j :: 0 <= j < i ==> ts[j].id != Some(id)
  }

  /** `userTemplates.find(t => t.id === id)` */
  function FindTemplate(ts: seq<Template>, id: string): (r: Option<Template>)
    ensures r.Some? ==> r.value in ts && r.value.id == Some(id)
    ensures r.None? ==> forall t :: t in ts ==> t.id != Some(id)
    ensures forall i :: FirstWithId(ts, id, i) ==> r == Some(ts[i])
  {
    if ts == [] then None
    else if ts[0].id == Some(id) then
      assert forall i :: FirstWithId(ts, id, i) ==> i == 0;
      Some(ts[0])
    else
      FirstWithIdTail(ts, id);
      FindTemplate(ts[1..], id)
  }

  lemma FirstWithIdTail(ts: seq<Template>, id: string)
    requires ts != [] && ts[0].id != Some(id)
    ensures forall i :: FirstWithId(ts, id, i) ==> FirstWithId(ts[1..], id, i - 1) && ts[i] == ts[1..][i - 1]
  {
    forall i | FirstWithId(ts, id, i) ensures FirstWithId(ts[1..], id, i - 1) {
      assert i != 0;
      forall j | 0 <= j < i - 1 ensures ts[1..][j].id != Some(id) {
        assert ts[1..][j] == ts[j + 1];
      }
    }
  }

  // ------------------------------------------------------------ pure rules

  /** `builderType`: the selected type when the catalog has it, otherwise
      `general-consent`. */
  function BuilderType(selected: string): (r: string)
    ensures r in Catalog
    ensures selected in Catalog ==> r == selected
    ensures selected !in Catalog ==> r == "general-consent"
  {
    if selected != "" && selected in Catalog then selected else "general-consent"
  }

  /** The agreement a screen is given: a custom template's text, or the
      configured agreement for the language, else for English. */
  datatype AgreementSource<A> = CustomText(title: string, rawContent: string) | Configured(agreement: A)

  /** `getAgreementForType`; `agreements` is the configuration by language
      and type. */
  function GetAgreementForType<A>(formType: string, customContent: Option<string>, selectedTitle: string,
                                  lang: string, agreements: map<string, map<string, A>>)
    : (r: Option<AgreementSource<A>>)
    ensures StartsWith(formType, "custom_") ==>
      (r.None? <==> customContent.None? || customContent.value == "")
    ensures StartsWith(formType, "custom_") && r.Some? ==> r.value == CustomText(selectedTitle, customContent.value)
    ensures !StartsWith(formType, "custom_") && lang in agreements && formType in agreements[lang] ==>
      r == Some(Configured(agreements[lang][formType]))
    ensures !StartsWith(formType, "custom_") && !(lang in agreements && formType in agreements[lang]) ==>
      r == (if "en" in agreements && formType in agreements["en"] then Some(Configured(agreements["en"][formType])) else None)
  {
    if StartsWith(formType, "custom_") then
      if customContent.Some? && customContent.value != "" then Some(CustomText(selectedTitle, customContent.value))
      else None
    else if lang in agreements && formType in agreements[lang] then Some(Configured(agreements[lang][formType]))
    else if "en" in agreements && formType in agreements["en"] then Some(Configured(agreements["en"][formType]))
    else None
  }

  /** The saved document's title: a custom type's selected title or
      `Custom Agreement`; any other type's translated title. */
  function SaveTitle(formType: string, selectedTitle: string, translated: string): (r: string)
    ensures StartsWith(formType, "custom_") ==> r == (if selectedTitle != "" then selectedTitle else "Custom Agreement")
    ensures !StartsWith(formType, "custom_") ==> r == translated
    ensures StartsWith(formType, "custom_") ==> r != ""
  {
    if StartsWith(formType, "custom_") then
      if selectedTitle != "" then selectedTitle else "Custom Agreement"
    else translated
  }

  /** `s.replace(/\s+/g, '-')` */
  function DashSpaces(s: string): (r: string)
    ensures forall i :: 0 <= i < |r| ==> !IsSpace(r[i])
    ensures |r| <= |s|
    ensures (forall i :: 0 <= i < |s| ==> !IsSpace(s[i])) ==> r == s
    decreases |s|
  {
    if s == [] then []
    else if IsSpace(s[0]) then ['-'] + DashSpaces(TrimStart(s))
    else [s[0]] + DashSpaces(s[1..])
  }

  /** The saved file's name. */
  function FileName(title: string): (r: string)
    ensures EndsWith(r, ".pdf")
    ensures forall i :: 0 <= i < |r| ==> !IsSpace(r[i])
    ensures (forall i :: 0 <= i < |title| ==> !IsSpace(title[i])) ==> r == title + ".pdf"
  {
    var r := DashSpaces(title) + ".pdf";
    assert r[|r| - 4..] == ".pdf";
    r
  }

  lemma DashSpacesCons(c: char, x: string)
    requires !IsSpace(c)
    ensures DashSpaces([c] + x) == [c] + DashSpaces(x)
  {
    assert ([c] + x)[1..] == x;
  }

  /** A head without white space is kept as it is. */
  lemma {:induction false} DashSpacesKeepsHead(a: string, x: string)
    requires forall i :: 0 <= i < |a| ==> !IsSpace(a[i])
    ensures DashSpaces(a + x) == a + DashSpaces(x)
    decreases |a|
  {
    if a == [] {
      assert a + x == x;
    } else {
      Uncons(a, x);
      DashSpacesCons(a[0], a[1..] + x);
      DashSpacesKeepsHead(a[1..], x);
      Uncons(a, DashSpaces(x));
    }
  }

  /** A white-space run is trimmed up to the next other character. */
  lemma TrimStartRun(w: string, b: string)
    requires forall i :: 0 <= i < |w| ==> IsSpace(w[i])
    requires b == [] || !IsSpace(b[0])
    ensures TrimStart(w + b) == b
  {
    assert (w + b)[|w|..] == b;
  }

  /** Each whole run of white space becomes exactly one `-`. */
  lemma {:induction false} DashSpacesRun(a: string, w: string, b: string)
    requires forall i :: 0 <= i < |a| ==> !IsSpace(a[i])
    requires w != [] && forall i :: 0 <= i < |w| ==> IsSpace(w[i])
    requires b == [] || !IsSpace(b[0])
    ensures DashSpaces(a + w + b) == a + "-" + DashSpaces(b)
  {
    Regroup(a, w, b);
    DashSpacesKeepsHead(a, w + b);
    DashSpacesLeadingRun(w, b);
    Regroup(a, "-", DashSpaces(b));
  }

  lemma DashSpacesLeadingRun(w: string, b: string)
    requires w != [] && forall i :: 0 <= i < |w| ==> IsSpace(w[i])
    requires b == [] || !IsSpace(b[0])
    ensures DashSpaces(w + b) == "-" + DashSpaces(b)
  {
    assert (w + b)[0] == w[0];
    TrimStartRun(w, b);
  }

  /** The file name replaces each white-space run of the title by one `-`. */
  lemma FileNameRun(a: string, w: string, b: string)
    requires forall i :: 0 <= i < |a| ==> !IsSpace(a[i])
    requires w != [] && forall i :: 0 <= i < |w| ==> IsSpace(w[i])
    requires b == [] || !IsSpace(b[0])
    ensures FileName(a + w + b) == a + "-" + DashSpaces(b) + ".pdf"
  {
    DashSpacesRun(a, w, b);
  }

  // ------------------------------------------------------------ flow

  /** What the screens can ask the controller to do. */
  datatype Action =
    | SelectType | CommitStep | CompleteForm
    | CompleteReview | BackFromReview
    | CompleteAgreement | BackFromAgreement
    | CompleteSignature | BackFromSignature
    | CompleteDonation | StartOver

  /** The screen and the counter after an action. */
  function Next(s: Step, v: nat, a: Action): (Step, nat) {
    match a
    case SelectType => (Builder, 0)
    case CommitStep => (s, v + 1)
    case CompleteForm => (Review, v)
    case CompleteReview => (Agreement, v + 1)
    case BackFromReview => (Builder, v)
    case CompleteAgreement => (Donation, v + 1)
    case BackFromAgreement => (Review, v)
    case CompleteSignature => (Donation, v + 1)
    case BackFromSignature => (Review, v)
    case CompleteDonation => (Export, v + 1)
    case StartOver => (Welcome, 0)
  }

  /** The actions each screen wires up. The builder never calls the step
      commit, and no screen leads to the signature screen. */
  predicate Offered(s: Step, a: Action) {
    match s
    case Welcome => a == SelectType
    case Builder => a == CompleteForm || a == StartOver
    case Review => a == CompleteReview || a == BackFromReview
    case Agreement => a == CompleteAgreement || a == BackFromAgreement
    case Signature => a == CompleteSignature || a == BackFromSignature
    case Donation => a == CompleteDonation
    case Export => a == StartOver
  }

  /** `acts` is a sequence the screens can produce from screen `s`. */
  predicate Follows(s: Step, v: nat, acts: seq<Action>)
    decreases |acts|
  {
    acts == [] || (Offered(s, acts[0]) && Follows(Next(s, v, acts[0]).0, Next(s, v, acts[0]).1, acts[1..]))
  }

  function Run(s: Step, v: nat, acts: seq<Action>): (Step, nat)
    decreases |acts|
  {
    if acts == [] then (s, v) else Run(Next(s, v, acts[0]).0, Next(s, v, acts[0]).1, acts[1..])
  }

  /** The flow's invariant: never on the signature screen, the counter 0 on
      the welcome screen and at least the number of stages passed later. */
  predicate FlowInv(s: Step, v: nat) {
    && s != Signature
    && (s == Welcome ==> v == 0)
    && (s == Agreement ==> v >= 1)
    && (s == Donation ==> v >= 2)
    && (s == Export ==> v >= 3)
  }

  lemma {:induction false} ReachableSteps(s: Step, v: nat, acts: seq<Action>)
    requires FlowInv(s, v) && Follows(s, v, acts)
    ensures FlowInv(Run(s, v, acts).0, Run(s, v, acts).1)
    decreases |acts|
  {
    if acts != [] {
      var n := Next(s, v, acts[0]);
      assert FlowInv(n.0, n.1);
      ReachableSteps(n.0, n.1, acts[1..]);
    }
  }

  /** From the welcome screen the signature screen is never reached, and the
      export screen only after three counted stages. */
  lemma SignatureScreenUnreachable(acts: seq<Action>)
    requires Follows(Welcome, 0, acts)
    ensures Run(Welcome, 0, acts).0 != Signature
    ensures Run(Welcome, 0, acts).0 == Export ==> Run(Welcome, 0, acts).1 >= 3
  {
    ReachableSteps(Welcome, 0, acts);
  }

  // ------------------------------------------------------------ the session

  datatype SaveRequest = SaveRequest(formType: string, title: string, fileName: string)

  class Session {
    var step: Step
    var selectedFormType: string
    var selectedFormTitle: string
    var customAgreementContent: Option<string>
    var signatures: Stored
    var snapshotVersion: nat
    var userTemplates: seq<Template>
    const form: FormState
    const user: Option<string>
    const store: map<string, seq<Template>>
    const defaults: CatalogDefaults

    /** The initial session. */
    constructor (user: Option<string>, store: map<string, seq<Template>>, defaults: CatalogDefaults)
      ensures step == Welcome && selectedFormType == "" && selectedFormTitle == ""
      ensures customAgreementContent.None? && form.data == [] && signatures == NoSignatures
      ensures snapshotVersion == 0 && userTemplates == [] && fresh(form)
      ensures this.user == user && this.store == store && this.defaults == defaults
    {
      step := Welcome;
      selectedFormType := "";
      selectedFormTitle := "";
      customAgreementContent := None;
      form := new FormState([]);
      signatures := NoSignatures;
      snapshotVersion := 0;
      userTemplates := [];
      this.user := user;
      this.store := store;
      this.defaults := defaults;
    }

    /** The templates effect: the stored list of a signed-in user, else
        none. */
    method LoadTemplates()
      modifies this
      ensures user.Some? && TemplatesKey(user.value) in store ==> userTemplates == store[TemplatesKey(user.value)]
      ensures user.None? || TemplatesKey(user.value) !in store ==> userTemplates == []
      ensures step == old(step) && snapshotVersion == old(snapshotVersion) && signatures == old(signatures)
      ensures selectedFormType == old(selectedFormType) && customAgreementContent == old(customAgreementContent)
      ensures selectedFormTitle == old(selectedFormTitle)
    {
      if user.Some? && TemplatesKey(user.value) in store {
        userTemplates := store[TemplatesKey(user.value)];
      } else {
        userTemplates := [];
      }
    }

    /** The custom content after choosing `formType`: the content of the
        template with that id, looked up in the loaded list and then in the
        store; unchanged when there is none. */
    function ChosenContent(formType: string): Option<string>
      requires StartsWith(formType, "custom_") && FindTemplate(userTemplates, formType).None? ==> user.Some?
      reads this
    {
      if !StartsWith(formType, "custom_") then customAgreementContent
      else
        var t := FindTemplate(userTemplates, formType);
        if t.Some? then Some(t.value.content)
        else
          var stored := if TemplatesKey(user.value) in store then store[TemplatesKey(user.value)] else [];
          var found := FindTemplate(stored, formType);
          if found.Some? then Some(found.value.content) else customAgreementContent
    }

    method ChooseType(formType: string, formTitle: string)
      requires StartsWith(formType, "custom_") && FindTemplate(userTemplates, formType).None? ==> user.Some?
      modifies this
      ensures selectedFormType == formType && selectedFormTitle == formTitle
      ensures customAgreementContent == old(ChosenContent(formType))
      ensures step == old(step) && signatures == old(signatures) && snapshotVersion == old(snapshotVersion)
      ensures userTemplates == old(userTemplates)
    {
      customAgreementContent := ChosenContent(formType);
      selectedFormType := formType;
      selectedFormTitle := formTitle;
    }

    /** A new form: these participants, no signatures, counter reset, on the
        builder. */
    method Begin(ps: seq<Participant>)
      modifies this, form
      ensures form.data == [Entry("participants", List(ps))] && ParticipantsOf(form.data) == ps
      ensures signatures == NoSignatures && (step, snapshotVersion) == Next(old(step), old(snapshotVersion), SelectType)
      ensures selectedFormType == old(selectedFormType) && selectedFormTitle == old(selectedFormTitle)
      ensures customAgreementContent == old(customAgreementContent) && userTemplates == old(userTemplates)
    {
      form.Replace([Entry("participants", List(ps))]);
      signatures := NoSignatures;
      snapshotVersion := 0;
      step := Builder;
    }

    /** `handleFormTypeSelect` seeding fresh participant objects holding the
        catalog's default records, so nothing a session edits is shared. */
    method HandleFormTypeSelect(formType: string, formTitle: string)
      requires StartsWith(formType, "custom_") && FindTemplate(userTemplates, formType).None? ==> user.Some?
      modifies this, form
      ensures selectedFormType == formType && selectedFormTitle == formTitle
      ensures customAgreementContent == old(ChosenContent(formType))
      ensures var ps := ParticipantsOf(form.data);
        form.data == [Entry("participants", List(ps))] && |ps| == |SeedParties(formType)|
        && forall i :: 0 <= i < |ps| ==> fresh(ps[i]) && ps[i].View() == SeedParties(formType)[i]
      ensures signatures == NoSignatures && step == Builder && snapshotVersion == 0
      ensures userTemplates == old(userTemplates)
    {
      ChooseType(formType, formTitle);
      var ps := FreshParticipants(SeedParties(formType));
      Begin(ps);
    }

    /** `handleFormTypeSelect` as written: a catalog type's form data holds
        the catalog's own default objects, which the participants editor then
        writes in place. */
    method HandleFormTypeSelectShared(formType: string, formTitle: string)
      requires StartsWith(formType, "custom_") && FindTemplate(userTemplates, formType).None? ==> user.Some?
      modifies this, form
      ensures selectedFormType == formType && selectedFormTitle == formTitle
      ensures customAgreementContent == old(ChosenContent(formType))
      ensures var ps := ParticipantsOf(form.data);
        form.data == [Entry("participants", List(ps))]
        && (!StartsWith(formType, "custom_") && CatalogDefaultsOf(formType).Some? ==> ps == defaults.Objects(formType))
        && (StartsWith(formType, "custom_") || CatalogDefaultsOf(formType).None? ==>
              |ps| == 2 && fresh(ps[0]) && fresh(ps[1]) && ps[0].View() == DefaultPair[0] && ps[1].View() == DefaultPair[1])
      ensures signatures == NoSignatures && step == Builder && snapshotVersion == 0
      ensures userTemplates == old(userTemplates)
    {
      ChooseType(formType, formTitle);
      var ps;
      if !StartsWith(formType, "custom_") && CatalogDefaultsOf(formType).Some? {
        ps := defaults.Objects(formType);
      } else {
        ps := FreshParticipants(DefaultPair);
      }
      Begin(ps);
    }

    /** `handleFormComplete`: the builder's data, then the review; the
        counter is not bumped. */
    method HandleFormComplete(data: Obj<Value>)
      modifies this, form
      ensures form.data == data && (step, snapshotVersion) == Next(old(step), old(snapshotVersion), CompleteForm)
      ensures signatures == old(signatures) && selectedFormType == old(selectedFormType)
      ensures selectedFormTitle == old(selectedFormTitle) && customAgreementContent == old(customAgreementContent)
      ensures userTemplates == old(userTemplates)
    {
      form.Replace(data);
      step := Review;
    }

    /** `handleStepCommit` */
    method HandleStepCommit(stepIndex: nat, data: Obj<Value>)
      modifies this, form
      ensures form.data == data && (step, snapshotVersion) == Next(old(step), old(snapshotVersion), CommitStep)
      ensures signatures == old(signatures) && selectedFormType == old(selectedFormType)
      ensures selectedFormTitle == old(selectedFormTitle) && customAgreementContent == old(customAgreementContent)
      ensures userTemplates == old(userTemplates)
    {
      form.Replace(data);
      snapshotVersion := snapshotVersion + 1;
    }

    /** The review screen's edit. */
    method HandleReviewEdit(data: Obj<Value>)
      modifies form
      ensures form.data == data
    {
      form.Replace(data);
    }

    method HandleReviewComplete()
      modifies this
      ensures (step, snapshotVersion) == Next(old(step), old(snapshotVersion), CompleteReview)
      ensures signatures == old(signatures) && selectedFormType == old(selectedFormType)
      ensures selectedFormTitle == old(selectedFormTitle) && customAgreementContent == old(customAgreementContent)
      ensures userTemplates == old(userTemplates)
      ensures form.data == old(form.data)
    {
      snapshotVersion := snapshotVersion + 1;
      step := Agreement;
    }

    /** `handleAgreementComplete`: the payload is stored as it is. */
    method HandleAgreementComplete(payload: AgreementPayload)
      modifies this
      ensures signatures == FromAgreement(payload)
      ensures (step, snapshotVersion) == Next(old(step), old(snapshotVersion), CompleteAgreement)
      ensures selectedFormType == old(selectedFormType)
      ensures selectedFormTitle == old(selectedFormTitle) && customAgreementContent == old(customAgreementContent)
      ensures userTemplates == old(userTemplates)
      ensures form.data == old(form.data)
    {
      signatures := FromAgreement(payload);
      snapshotVersion := snapshotVersion + 1;
      step := Donation;
    }

    /** `handleSignatureComplete`: the payload is wrapped as
        `{ participant: payload }`. */
    method HandleSignatureComplete(payload: SinglePayload)
      modifies this
      ensures signatures == FromSignature(payload)
      ensures (step, snapshotVersion) == Next(old(step), old(snapshotVersion), CompleteSignature)
      ensures selectedFormType == old(selectedFormType)
      ensures selectedFormTitle == old(selectedFormTitle) && customAgreementContent == old(customAgreementContent)
      ensures userTemplates == old(userTemplates)
      ensures form.data == old(form.data)
    {
      signatures := FromSignature(payload);
      snapshotVersion := snapshotVersion + 1;
      step := Donation;
    }

    method HandleDonationComplete()
      modifies this
      ensures (step, snapshotVersion) == Next(old(step), old(snapshotVersion), CompleteDonation)
      ensures signatures == old(signatures) && selectedFormType == old(selectedFormType)
      ensures selectedFormTitle == old(selectedFormTitle) && customAgreementContent == old(customAgreementContent)
      ensures userTemplates == old(userTemplates)
      ensures form.data == old(form.data)
    {
      snapshotVersion := snapshotVersion + 1;
      step := Export;
    }

    /** The back buttons of the review, agreement and signature screens. */
    method HandleBack(a: Action)
      requires a == BackFromReview || a == BackFromAgreement || a == BackFromSignature
      modifies this
      ensures (step, snapshotVersion) == Next(old(step), old(snapshotVersion), a)
      ensures signatures == old(signatures) && selectedFormType == old(selectedFormType)
      ensures selectedFormTitle == old(selectedFormTitle) && customAgreementContent == old(customAgreementContent)
      ensures userTemplates == old(userTemplates)
      ensures form.data == old(form.data)
    {
      step := if a == BackFromReview then Builder else Review;
    }

    /** `handleStartOver`: the initial session again. */
    method HandleStartOver()
      modifies this, form
      ensures step == Welcome && selectedFormType == "" && selectedFormTitle == ""
      ensures customAgreementContent.None? && form.data == [] && signatures == NoSignatures
      ensures (step, snapshotVersion) == Next(old(step), old(snapshotVersion), StartOver)
      ensures userTemplates == old(userTemplates)
    {
      step := Welcome;
      selectedFormType := "";
      selectedFormTitle := "";
      customAgreementContent := None;
      form.Replace([]);
      signatures := NoSignatures;
      snapshotVersion := 0;
    }

    /** `handleSaveDocument` up to the upload: nothing without a user;
        otherwise the title and the file name. `translated` is the selected
        type's translated title. */
    method SaveDocument(translated: string) returns (r: Option<SaveRequest>)
      ensures r.None? <==> user.None?
      ensures r.Some? ==>
        var title := SaveTitle(selectedFormType, selectedFormTitle, translated);
        r.value == SaveRequest(selectedFormType, title, FileName(title))
    {
      if user.None? {
        return None;
      }
      var title := SaveTitle(selectedFormType, selectedFormTitle, translated);
      return Some(SaveRequest(selectedFormType, title, FileName(title)));
    }

    /** The voice assistant is shown to a signed-in user with a chosen type
        on every screen after the welcome screen. */
    predicate AssistantShown()
      reads this
    {
      user.Some? && step in {Builder, Review, Agreement, Donation, Export} && selectedFormType != ""
    }
  }

  // ------------------------------------------------------------ finding

  /** The participants editor on a form: a first name typed into the first
      participant. */
  method TypeFirstName(form: FormState, name: string)
    requires |ParticipantsOf(form.data)| >= 1
    modifies form, set p | p in ParticipantsOf(form.data)
    ensures old(ParticipantsOf(form.data))[0].View().firstName == name
  {
    var editor := new ParticipantsEditor(ContentReleaseRoles, form);
    editor.HandleParticipantChange(0, FirstName, name);
  }

  /** As written: a name typed into the first participant of one session
      shows up in the next session of the same type. */
  method DefaultsLeakAcrossSessions() returns (seen: Party)
    ensures seen.firstName == "Bob"
  {
    var defaults := new CatalogDefaults();
    var session := new Session(None, map[], defaults);
    CatalogDefaultsByType();
    ContentReleaseIsNotCustom();
    session.HandleFormTypeSelectShared("content-release", "Content Release");
    var p := defaults.contentRelease[0];
    assert ParticipantsOf(session.form.data)[0] == p;
    TypeFirstName(session.form, "Bob");
    assert p.View().firstName == "Bob";
    session.HandleStartOver();
    session.HandleFormTypeSelectShared("content-release", "Content Release");
    assert ParticipantsOf(session.form.data)[0] == p;
    seen := p.View();
  }

  /** Corrected: every session starts from blank records. */
  method FreshSeedsStayBlank() returns (seen: Party)
    ensures seen.firstName == ""
  {
    var defaults := new CatalogDefaults();
    var session := new Session(None, map[], defaults);
    CatalogDefaultsByType();
    ContentReleaseIsNotCustom();
    session.HandleFormTypeSelect("content-release", "Content Release");
    TypeFirstName(session.form, "Bob");
    session.HandleStartOver();
    session.HandleFormTypeSelect("content-release", "Content Release");
    seen := ParticipantsOf(session.form.data)[0].View();
  }
}
