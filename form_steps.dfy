/** The static catalog of the three built-in document types: their steps,
    each step's fields, and the participants descriptor with its bounds,
    default records and role choices. */
module FormSteps {
  import opened Common
  import opened Values

  datatype RoleOption = RoleOption(value: string, labelKey: string, descriptionKey: string)

  /** A participants field's settings. A `max` of 0 stands for an absent
      (falsy) maximum, which the editor reads as no limit. */
  datatype ParticipantsSpec = ParticipantsSpec(
    labelKey: string,
    descriptionKey: string,
    min: nat,
    max: nat,
    defaults: Option<seq<Party>>,
    roleOptions: seq<RoleOption>)

  /** A field of a step; `kind` is the field's `type` string and
      `participants` carries the extra settings of a participants field. */
  datatype Field = Field(id: string, labelKey: string, kind: string, participants: Option<ParticipantsSpec>)

  datatype StepDescriptor = StepDescriptor(titleKey: string, fields: seq<Field>)

  function Roles(key: string, defaults: seq<string>, options: seq<(string, string)>): ParticipantsSpec {
    ParticipantsSpec(
      "form." + key + ".participants_label",
      "form." + key + ".participants_desc",
      2, 10,
      Some(seq(|defaults|, i requires 0 <= i < |defaults| => Blank(defaults[i]))),
      seq(|options|, i requires 0 <= i < |options| =>
        RoleOption(options[i].0,
                   "form." + key + ".role_" + options[i].1 + "_label",
                   "form." + key + ".role_" + options[i].1 + "_desc")))
  }

  const ContentReleaseRoles :=
    Roles("content-release", ["Releasor", "Releasee"],
          [("Releasor", "releasor"), ("Releasee", "releasee"), ("Additional Participant", "additional")])

  const GeneralConsentRoles :=
    Roles("general-consent", ["Party A", "Party B"],
          [("Party A", "partyA"), ("Party B", "partyB"), ("Witness", "witness")])

  const NdaRoles :=
    Roles("nda", ["Disclosing Party", "Receiving Party"],
          [("Disclosing Party", "disclosing"), ("Receiving Party", "receiving"), ("Witness", "witness")])

  function ParticipantsFieldOf(spec: ParticipantsSpec): Field {
    Field("participants", spec.labelKey, "participants", Some(spec))
  }

  function Plain(id: string, labelKey: string, kind: string): Field {
    Field(id, labelKey, kind, None)
  }

  const ContentReleaseSteps: seq<StepDescriptor> := [
    StepDescriptor("form.content-release.step1Title", [ParticipantsFieldOf(ContentReleaseRoles)]),
    StepDescriptor("form.content-release.step2Title", [
      Plain("eventName", "form.content-release.eventName_label", "text"),
      Plain("date", "form.common.date", "date"),
      Plain("idPhoto", "form.common.idPhotoOptional", "file"),
      Plain("shareEmail", "form.common.shareEmail", "email")]),
    StepDescriptor("form.content-release.step3Title", [
      Plain("socialMedia", "form.content-release.socialMedia_label", "checkbox"),
      Plain("commercial", "form.content-release.commercial_label", "checkbox"),
      Plain("marketing", "form.content-release.marketing_label", "checkbox"),
      Plain("noExpiration", "form.content-release.noExpiration_label", "checkbox")]),
    StepDescriptor("form.content-release.step4Title", [
      Plain("compensation", "form.content-release.compensation_label", "text"),
      Plain("additionalTerms", "form.common.additionalTerms", "textarea")])
  ]

  const GeneralConsentSteps: seq<StepDescriptor> := [
    StepDescriptor("form.general-consent.step1Title", [ParticipantsFieldOf(GeneralConsentRoles)]),
    StepDescriptor("form.general-consent.step2Title", [
      Plain("activityName", "form.general-consent.activityName_label", "text"),
      Plain("idPhoto", "form.common.idPhotoOptional", "file"),
      Plain("shareEmail", "form.common.shareEmailOptional", "email")]),
    StepDescriptor("form.general-consent.step3Title", [
      Plain("healthDisclosure", "form.general-consent.healthDisclosure_label", "checkbox"),
      Plain("voluntaryParticipation", "form.general-consent.voluntaryParticipation_label", "checkbox")])
  ]

  const NdaSteps: seq<StepDescriptor> := [
    StepDescriptor("form.nda.step1Title", [
      ParticipantsFieldOf(NdaRoles),
      Plain("effectiveDate", "form.nda.effectiveDate_label", "date")]),
    StepDescriptor("form.nda.step2Title", [
      Plain("purpose", "form.nda.purpose_label", "textarea"),
      Plain("idPhoto", "form.common.idPhoto", "file"),
      Plain("shareEmail", "form.common.shareEmail", "email")]),
    StepDescriptor("form.nda.step3Title", [
      Plain("duration", "form.nda.duration_label", "number"),
      Plain("returnMaterials", "form.nda.returnMaterials_label", "checkbox")]),
    StepDescriptor("form.nda.step4Title", [
      Plain("jurisdiction", "form.nda.jurisdiction_label", "text"),
      Plain("additionalClauses", "form.common.additionalClauses", "textarea")])
  ]

  /** `formSteps` */
  const Catalog: map<string, seq<StepDescriptor>> := map[
    "content-release" := ContentReleaseSteps,
    "general-consent" := GeneralConsentSteps,
    "nda" := NdaSteps]

  /** `formSteps[formType] || []` */
  function StepsFor(formType: string): (r: seq<StepDescriptor>)
    ensures formType in Catalog ==> r == Catalog[formType]
    ensures formType !in Catalog ==> r == []
  {
    if formType in Catalog then Catalog[formType] else []
  }

  /** `fields[i]` is the first participants field. */
  predicate FirstParticipantsAt(fields: seq<Field>, i: int) {
    0 <= i < |fields| && fields[i].kind == "participants"
    && forall j :: 0 <= j < i ==> fields[j].kind != "participants"
  }

  /** `fields.find(f => f.type === 'participants')` */
  function FindParticipantsField(fields: seq<Field>): (r: Option<Field>)
    ensures r.Some? ==> r.value in fields && r.value.kind == "participants"
    ensures r.None? ==> forall f :: f in fields ==> f.kind != "participants"
    ensures forall i :: FirstParticipantsAt(fields, i) ==> r == Some(fields[i])
  {
    if fields == [] then None
    else if fields[0].kind == "participants" then
      assert forall i :: FirstParticipantsAt(fields, i) ==> i == 0;
      Some(fields[0])
    else
      FirstParticipantsTail(fields);
      FindParticipantsField(fields[1..])
  }

  lemma FirstParticipantsTail(fields: seq<Field>)
    requires fields != [] && fields[0].kind != "participants"
    ensures forall i :: FirstParticipantsAt(fields, i) ==>
      FirstParticipantsAt(fields[1..], i - 1) && fields[i] == fields[1..][i - 1]
  {
    forall i | FirstParticipantsAt(fields, i) ensures FirstParticipantsAt(fields[1..], i - 1) {
      assert i != 0;
      forall j | 0 <= j < i - 1 ensures fields[1..][j].kind != "participants" {
        assert fields[1..][j] == fields[j + 1];
      }
    }
  }

  /** The participants descriptor of a type's first step, if it has one. */
  function FirstStepParticipants(steps: seq<StepDescriptor>): Option<ParticipantsSpec> {
    if steps == [] then None
    else
      var f := FindParticipantsField(steps[0].fields);
      if f.Some? then f.value.participants else None
  }

  predicate UniqueIds(fields: seq<Field>) {
    forall i, j :: 0 <= i < j < |fields| ==> fields[i].id != fields[j].id
  }

  predicate RoleValue(spec: ParticipantsSpec, role: string) {
    exists o :: o in spec.roleOptions && o.value == role
  }

  /** What the editor and the controller rely on in a participants
      descriptor: defaults within the bounds, every default role one of the
      offered roles, and at least one role to offer. */
  predicate WellFormed(spec: ParticipantsSpec) {
    && 1 <= spec.min <= spec.max
    && spec.defaults.Some?
    && spec.min <= |spec.defaults.value| <= spec.max
    && (forall p :: p in spec.defaults.value ==> p == Blank(p.role) && RoleValue(spec, p.role))
    && |spec.roleOptions| > 0
  }

  lemma RolesShape(key: string, defaults: seq<string>, options: seq<(string, string)>)
    requires 2 <= |defaults| <= 10 && |options| > 0
    requires forall d :: d in defaults ==> exists k :: 0 <= k < |options| && options[k].0 == d
    ensures WellFormed(Roles(key, defaults, options))
    ensures Roles(key, defaults, options).min == 2 && Roles(key, defaults, options).max == 10
    ensures Roles(key, defaults, options).defaults.value == seq(|defaults|, i requires 0 <= i < |defaults| => Blank(defaults[i]))
  {
    var spec := Roles(key, defaults, options);
    forall p | p in spec.defaults.value ensures p == Blank(p.role) && RoleValue(spec, p.role) {
      var i :| 0 <= i < |defaults| && p == Blank(defaults[i]);
      assert defaults[i] in defaults;
      var k :| 0 <= k < |options| && options[k].0 == defaults[i];
      assert spec.roleOptions[k].value == p.role;
    }
  }

  /** Every participants descriptor has bounds 2 and 10, two blank defaults
      whose roles are offered choices, and a non-empty role list. */
  lemma DescriptorsWellFormed()
    ensures WellFormed(ContentReleaseRoles) && WellFormed(GeneralConsentRoles) && WellFormed(NdaRoles)
    ensures ContentReleaseRoles.min == GeneralConsentRoles.min == NdaRoles.min == 2
    ensures ContentReleaseRoles.max == GeneralConsentRoles.max == NdaRoles.max == 10
    ensures ContentReleaseRoles.defaults.value == [Blank("Releasor"), Blank("Releasee")]
    ensures GeneralConsentRoles.defaults.value == [Blank("Party A"), Blank("Party B")]
    ensures NdaRoles.defaults.value == [Blank("Disclosing Party"), Blank("Receiving Party")]
  {
    var cr := [("Releasor", "releasor"), ("Releasee", "releasee"), ("Additional Participant", "additional")];
    assert cr[0].0 == "Releasor" && cr[1].0 == "Releasee";
    RolesShape("content-release", ["Releasor", "Releasee"], cr);
    var gc := [("Party A", "partyA"), ("Party B", "partyB"), ("Witness", "witness")];
    assert gc[0].0 == "Party A" && gc[1].0 == "Party B";
    RolesShape("general-consent", ["Party A", "Party B"], gc);
    var nd := [("Disclosing Party", "disclosing"), ("Receiving Party", "receiving"), ("Witness", "witness")];
    assert nd[0].0 == "Disclosing Party" && nd[1].0 == "Receiving Party";
    RolesShape("nda", ["Disclosing Party", "Receiving Party"], nd);
  }

  /** The catalog's shape: three types with 4, 3 and 4 steps, the
      participants field in each first step, distinct field ids in every
      step. */
  lemma CatalogShape()
    ensures Catalog.Keys == {"content-release", "general-consent", "nda"}
    ensures |Catalog["content-release"]| == 4 && |Catalog["general-consent"]| == 3 && |Catalog["nda"]| == 4
    ensures FirstStepParticipants(Catalog["content-release"]) == Some(ContentReleaseRoles)
    ensures FirstStepParticipants(Catalog["general-consent"]) == Some(GeneralConsentRoles)
    ensures FirstStepParticipants(Catalog["nda"]) == Some(NdaRoles)
    ensures forall t, k :: t in Catalog && 0 <= k < |Catalog[t]| ==> UniqueIds(Catalog[t][k].fields)
  {
  }

  /** Every catalog type's first step carries a well-formed participants
      descriptor, which the controller uses to seed a new form. */
  lemma CatalogSeedsWellFormed(formType: string)
    requires formType in Catalog
    ensures FirstStepParticipants(Catalog[formType]).Some?
    ensures WellFormed(FirstStepParticipants(Catalog[formType]).value)
  {
    CatalogShape();
    DescriptorsWellFormed();
  }
}
