/** The PDF export (`generatePdf`).

    The document is written top to bottom with a cursor `y` in millimetres.
    Before each block the cursor is checked against the bottom margin and a
    new page is started when the block would not fit. The model records what
    is drawn as a list of operations (`Op`) and keeps the cursor and the page
    count beside it (`Page`). Section functions (`Summary`, `PartyBlock`,
    `Photo`, `AgreementSection`, `SignatureSection`, and `Layout` for the
    whole document) are the reference definition. `GeneratePdf` is the
    imperative writer, proved equal to `Layout`. `LayoutStaysInMargins` proves
    that nothing starts above the top margin or below the bottom one.

    Things the model takes as parameters (`Env`): jsPDF's page size,
    `splitTextToSize` (how a text breaks into lines at a width), whether
    `addImage` accepts a data URL in a format, the translation of the title
    key, and the three legal texts. */
module PdfGenerator {
  import opened Common
  import opened JsObject
  import opened Values
  import opened FieldLabel
  import opened AgreementScreen
  import opened SignatureScreen
  import opened SignatureData

  const Margin := 15

  /** What is drawn: text lines anchored at (x, y), an image, a page break. */
  datatype Op =
    | TextAt(lines: seq<string>, x: int, y: int)
    | Image(src: string, format: string, x: int, y: int, w: int, h: int)
    | NewPage

  /** The cursor, the number of pages and what has been drawn so far. */
  datatype Page = Page(y: int, pages: nat, ops: seq<Op>)

  datatype Env = Env(
    pageWidth: int,
    pageHeight: int,
    split: (string, int) -> seq<string>,
    accepts: (string, string) -> bool)

  function ContentWidth(env: Env): int { env.pageWidth - 2 * Margin }

  // ------------------------------------------------------------ page cursor

  /** `checkAndAddPage(h)`: start a new page when a block of height `h` would
      cross the bottom margin. */
  function MakeRoom(s: Page, h: int, pageHeight: int): (r: Page)
    ensures r.pages == s.pages || r.pages == s.pages + 1
    ensures r.pages == s.pages <==> r == s
    ensures r.pages == s.pages + 1 ==> r == Page(Margin, s.pages + 1, s.ops + [NewPage])
    ensures r == s <==> s.y + h <= pageHeight - Margin
    ensures 0 <= h <= pageHeight - 2 * Margin ==> r.y + h <= pageHeight - Margin
  {
    if s.y + h > pageHeight - Margin then Page(Margin, s.pages + 1, s.ops + [NewPage]) else s
  }

  /** `doc.text(lines, x, y)` at the cursor. */
  function TextStep(s: Page, lines: seq<string>, x: int): Page {
    Page(s.y, s.pages, s.ops + [TextAt(lines, x, s.y)])
  }

  /** `doc.addImage(src, format, x, y, w, h)` at the cursor. */
  function ImageStep(s: Page, src: string, format: string, x: int, w: int, h: int): Page {
    Page(s.y, s.pages, s.ops + [Image(src, format, x, s.y, w, h)])
  }

  /** `y += dy` */
  function Down(s: Page, dy: int): Page {
    Page(s.y + dy, s.pages, s.ops)
  }

  // ------------------------------------------------------------ title

  function FallbackTitle(formType: string): (r: string)
    ensures formType !in {"content-release", "general-consent", "nda"} ==> r == "Completed Form"
  {
    if formType == "content-release" then "Content Release Form"
    else if formType == "general-consent" then "Sexual Consent Form"
    else if formType == "nda" then "Non-Disclosure Agreement"
    else "Completed Form"
  }

  /** `t ? (t(key) || fallback) : fallback`, where `translation` is `None`
      when no translation function is passed and otherwise what it returns. */
  function TitleText(formType: string, translation: Option<string>): (r: string)
    ensures r != ""
    ensures translation.Some? && translation.value != "" ==> r == translation.value
    ensures translation.None? || translation == Some("") ==> r == FallbackTitle(formType)
  {
    if translation.Some? && translation.value != "" then translation.value else FallbackTitle(formType)
  }

  // ------------------------------------------------------------ summary

  /** The keys the summary leaves to the later sections. */
  predicate Skipped(key: string) {
    key == "idPhoto" || key == "releasors" || key == "releasee" || key == "participants"
  }

  /** A summary value: booleans as Yes/No, everything else as its string, with
      `N/A` for an empty one. */
  function SummaryValue(v: Snapshot): (r: string)
    ensures r != ""
    ensures v.Bool? ==> r == (if v.b then "Yes" else "No")
    ensures v.Text? && v.s != "" ==> r == v.s
    ensures v.Undefined? || v.Null? || v == Text("") ==> r == "N/A"
  {
    if v.Bool? then (if v.b then "Yes" else "No")
    else if Sanitize(v) == "" then "N/A" else Sanitize(v)
  }

  function SummaryRow(s: Page, e: Entry<Snapshot>, env: Env): Page {
    if Skipped(e.key) then s
    else
      var c := TextStep(MakeRoom(s, 6, env.pageHeight), [FormatFieldLabel(e.key) + ":"], Margin);
      var lines := env.split(SummaryValue(e.value), ContentWidth(env) - 55);
      Down(TextStep(c, lines, Margin + 50), |lines| * 5 + 1)
  }

  /** The summary rows of the entries, in their order. */
  function Summary(s: Page, es: Obj<Snapshot>, env: Env): Page
    decreases |es|
  {
    if es == [] then s else SummaryRow(Summary(s, es[..|es| - 1], env), es[|es| - 1], env)
  }

  function Unskipped(es: Obj<Snapshot>): (r: Obj<Snapshot>)
    ensures forall i :: 0 <= i < |r| ==> !Skipped(r[i].key)
    decreases |es|
  {
    if es == [] then []
    else Unskipped(es[..|es| - 1]) + (if Skipped(es[|es| - 1].key) then [] else [es[|es| - 1]])
  }

  /** The skipped keys leave no trace in the summary. */
  lemma {:induction false} SummaryIgnoresSkippedKeys(s: Page, es: Obj<Snapshot>, env: Env)
    ensures Summary(s, es, env) == Summary(s, Unskipped(es), env)
    decreases |es|
  {
    if es != [] {
      var init, last := es[..|es| - 1], es[|es| - 1];
      SummaryIgnoresSkippedKeys(s, init, env);
      var u := Unskipped(init);
      if !Skipped(last.key) {
        assert Unskipped(es) == u + [last];
        assert (u + [last])[..|u + [last]| - 1] == u;
        assert Summary(s, u + [last], env) == SummaryRow(Summary(s, u, env), last, env);
        assert Summary(s, es, env) == SummaryRow(Summary(s, init, env), last, env);
      } else {
        assert Unskipped(es) == u + [] == u;
        assert Summary(s, es, env) == SummaryRow(Summary(s, init, env), last, env) == Summary(s, init, env);
      }
    }
  }

  // ------------------------------------------------------------ parties

  /** The name line: `party.name`, or first and last name joined by a space,
      trimmed, with `N/A` when nothing is left. */
  function PartyName(p: Party): (r: string)
    ensures r != ""
    ensures p.name != "" && Trim(p.name) != "" ==> r == Trim(p.name)
    ensures p.name != "" && Trim(p.name) == "" ==> r == "N/A"
    ensures p.name == "" && Trim(p.firstName + " " + p.lastName) != "" ==> r == Trim(p.firstName + " " + p.lastName)
    ensures p.name == "" && Trim(p.firstName + " " + p.lastName) == "" ==> r == "N/A"
    ensures p.name == "" && p.firstName == "" && p.lastName == "" ==> r == "N/A"
  {
    var n := if p.name != "" then p.name else p.firstName + " " + p.lastName;
    TrimEmptyIffBlank(n);
    var m := Trim(n);
    if m == "" then "N/A" else m
  }

  function PartyEmail(p: Party): (r: string)
    ensures r != "" && (p.email != "" ==> r == p.email)
  {
    if p.email == "" then "N/A" else p.email
  }

  /** `renderPartyInfo(party, title)` */
  function PartyBlock(s: Page, p: Party, title: string, env: Env): Page {
    var b0 := Down(MakeRoom(s, 20, env.pageHeight), 4);
    var b1 := Down(TextStep(b0, [title], Margin), 6);
    var b2 := Down(TextStep(b1, ["Name: " + PartyName(p)], Margin + 5), 5);
    Down(TextStep(b2, ["Email: " + PartyEmail(p)], Margin + 5), 5)
  }

  /** One block per party, titled `<prefix> #1`, `<prefix> #2`, … */
  function Parties(s: Page, ps: seq<Party>, prefix: string, env: Env): Page
    decreases |ps|
  {
    if ps == [] then s
    else PartyBlock(Parties(s, ps[..|ps| - 1], prefix, env), ps[|ps| - 1], prefix + " #" + NatToString(|ps|), env)
  }

  /** The records under `key` when it holds a list of them. */
  function PartyList(d: Obj<Snapshot>, key: string): seq<Party> {
    var v := Lookup(d, key);
    if v.Some? && v.value.List? then v.value.items else []
  }

  function Releasee(s: Page, d: Obj<Snapshot>, env: Env): Page {
    var v := Lookup(d, "releasee");
    if v.Some? && v.value.Record? then PartyBlock(s, v.value.party, "Releasee", env) else s
  }

  // ------------------------------------------------------------ ID photo

  /** `dataUrl.split(';')[0].split('/')[1].toUpperCase()`; `None` where the
      second piece does not exist and the expression throws. */
  function ImageFormat(dataUrl: string): (r: Option<string>)
    ensures '/' !in SplitOn(dataUrl, ';')[0] ==> r.None?
  {
    var parts := SplitOn(SplitOn(dataUrl, ';')[0], '/');
    if |parts| < 2 then None else Some(Upper(parts[1]))
  }

  /** Splitting at the first separator yields the text before it, then the
      pieces of the rest. */
  lemma {:induction false} SplitOnFirst(a: string, sep: char, b: string)
    requires sep !in a
    ensures SplitOn(a + [sep] + b, sep) == [a] + SplitOn(b, sep)
    decreases |a|
  {
    var s := a + [sep] + b;
    if a == [] {
      assert s[1..] == b;
    } else {
      assert s[1..] == a[1..] + [sep] + b;
      SplitOnFirst(a[1..], sep, b);
      assert [a[0]] + a[1..] == a;
    }
  }

  /** A data URL `<kind>/<subtype>;<rest>` gives the subtype in upper case:
      `data:image/png;base64,…` gives `PNG`. */
  lemma ImageFormatOfDataUrl(kind: string, subtype: string, rest: string)
    requires '/' !in kind && ';' !in kind && '/' !in subtype && ';' !in subtype
    ensures ImageFormat(kind + "/" + subtype + ";" + rest) == Some(Upper(subtype))
  {
    var head := kind + "/" + subtype;
    assert kind + "/" + subtype + ";" + rest == head + [';'] + rest;
    SplitOnFirst(head, ';', rest);
    assert head == kind + ['/'] + subtype;
    SplitOnFirst(kind, '/', subtype);
  }

  function IdPhotoUrl(d: Obj<Snapshot>): Option<string> {
    var v := Lookup(d, "idPhoto");
    if v.Some? && v.value.File? && v.value.file.dataUrl != "" then Some(v.value.file.dataUrl) else None
  }

  function PhotoBlock(s: Page, url: string, env: Env): Page {
    var c := Down(TextStep(Down(MakeRoom(s, 60, env.pageHeight), 4), ["ID Photo:"], Margin), 5);
    var fmt := ImageFormat(url);
    if fmt.Some? && env.accepts(url, fmt.value) then Down(ImageStep(c, url, fmt.value, Margin, 80, 50), 55)
    else Down(TextStep(c, ["Could not load ID image."], Margin), 5)
  }

  function Photo(s: Page, d: Obj<Snapshot>, env: Env): Page {
    var url := IdPhotoUrl(d);
    if url.Some? then PhotoBlock(s, url.value, env) else s
  }

  // ------------------------------------------------------------ agreement

  /** `AGREEMENT_TEXTS[formType] || 'No agreement text available.'`, the three
      legal texts given by `legal`. */
  function AgreementText(formType: string, legal: string -> string): (r: string)
    ensures formType !in {"content-release", "general-consent", "nda"} ==> r == "No agreement text available."
    ensures formType in {"content-release", "general-consent", "nda"} && legal(formType) != "" ==> r == legal(formType)
    ensures formType in {"content-release", "general-consent", "nda"} && legal(formType) == "" ==>
      r == "No agreement text available."
    ensures r != ""
  {
    if formType in {"content-release", "general-consent", "nda"} && legal(formType) != "" then legal(formType)
    else "No agreement text available."
  }

  function AgreementLine(s: Page, line: string, env: Env): Page {
    Down(TextStep(MakeRoom(s, 4, env.pageHeight), [line], Margin), 4)
  }

  function AgreementLines(s: Page, lines: seq<string>, env: Env): Page
    decreases |lines|
  {
    if lines == [] then s else AgreementLine(AgreementLines(s, lines[..|lines| - 1], env), lines[|lines| - 1], env)
  }

  /** One more line extends the layout of the lines before it. */
  lemma AgreementLinesSnoc(s: Page, lines: seq<string>, j: nat, env: Env)
    requires j < |lines|
    ensures AgreementLines(s, lines[..j + 1], env) == AgreementLine(AgreementLines(s, lines[..j], env), lines[j], env)
  {
    assert lines[..j + 1][..j] == lines[..j];
  }

  function AgreementHeading(s: Page, env: Env): Page {
    Down(TextStep(Down(MakeRoom(s, 20, env.pageHeight), 10), ["AGREEMENT"], Margin), 8)
  }

  function AgreementSection(s: Page, formType: string, legal: string -> string, env: Env): Page {
    AgreementLines(AgreementHeading(s, env), env.split(Trim(AgreementText(formType, legal)), ContentWidth(env)), env)
  }

  // ------------------------------------------------------------ signatures

  /** The properties the writer reads from the signatures object. */
  datatype SignatureFields = SignatureFields(
    date: string,
    releasorSignature: string,
    releaseeSignature: string,
    participantSignatures: seq<string>,
    participant: Option<string>)

  /** The fields each stored shape has: the agreement payload keeps its list
      under `signatures`, which is never read, so it contributes only its date. */
  function FieldsOf(s: Stored): (r: SignatureFields)
    ensures r.releasorSignature == "" && r.releaseeSignature == "" && r.participantSignatures == []
    ensures r.participant.Some? <==> s.FromSignature?
    ensures s.FromAgreement? ==> r.date == s.agreement.date
    ensures !s.FromAgreement? ==> r.date == ""
  {
    match s
    case NoSignatures => SignatureFields("", "", "", [], None)
    case FromAgreement(p) => SignatureFields(p.date, "", "", [], None)
    case FromSignature(p) => SignatureFields("", "", "", [], Some(p.signature))
  }

  datatype SigSource = SigSource(caption: string, src: string)

  /** The caption of the `i`th party signature, counted from 1. */
  function PartyCaption(i: nat): string {
    "Party #" + NatToString(i + 1) + " Signature:"
  }

  /** `participantSignatures.forEach((sig, i) => addSignature(...))`: every
      non-empty signature with its own caption, and nothing else. */
  function PartySources(sigs: seq<string>): (r: seq<SigSource>)
    ensures |r| <= |sigs|
    ensures forall i :: 0 <= i < |r| ==> r[i].src != "" && r[i].src in sigs
    decreases |sigs|
  {
    if sigs == [] then []
    else
      var last := sigs[|sigs| - 1];
      PartySources(sigs[..|sigs| - 1]) + (if last == "" then [] else [SigSource(PartyCaption(|sigs| - 1), last)])
  }

  /** Every non-empty signature is drawn under its own caption, and every
      drawn image is one of the signatures under its caption. */
  lemma {:induction false} PartySourcesCaptions(sigs: seq<string>)
    ensures var r := PartySources(sigs);
      forall i :: 0 <= i < |sigs| && sigs[i] != "" ==> SigSource(PartyCaption(i), sigs[i]) in r
    ensures var r := PartySources(sigs);
      forall k :: 0 <= k < |r| ==> exists i :: 0 <= i < |sigs| && r[k] == SigSource(PartyCaption(i), sigs[i])
    decreases |sigs|
  {
    if sigs != [] {
      var init := sigs[..|sigs| - 1];
      PartySourcesCaptions(init);
      PartySourcesSnoc(sigs, PartySources(init), PartySources(sigs));
    }
  }

  /** The prefix's facts carry over to the whole list. */
  lemma PartySourcesSnoc(sigs: seq<string>, p: seq<SigSource>, r: seq<SigSource>)
    requires sigs != []
    requires var init := sigs[..|sigs| - 1];
      && (forall i :: 0 <= i < |init| && init[i] != "" ==> SigSource(PartyCaption(i), init[i]) in p)
      && (forall k :: 0 <= k < |p| ==> exists i :: 0 <= i < |init| && p[k] == SigSource(PartyCaption(i), init[i]))
    requires var last := sigs[|sigs| - 1];
      r == p + (if last == "" then [] else [SigSource(PartyCaption(|sigs| - 1), last)])
    ensures forall i :: 0 <= i < |sigs| && sigs[i] != "" ==> SigSource(PartyCaption(i), sigs[i]) in r
    ensures forall k :: 0 <= k < |r| ==> exists i :: 0 <= i < |sigs| && r[k] == SigSource(PartyCaption(i), sigs[i])
  {
    var init := sigs[..|sigs| - 1];
    assert forall i :: 0 <= i < |init| ==> init[i] == sigs[i];
    forall k | 0 <= k < |r| ensures exists i :: 0 <= i < |sigs| && r[k] == SigSource(PartyCaption(i), sigs[i]) {
      if k < |p| {
        var i :| 0 <= i < |init| && p[k] == SigSource(PartyCaption(i), init[i]);
        assert r[k] == SigSource(PartyCaption(i), sigs[i]);
      } else {
        assert r[k] == SigSource(PartyCaption(|sigs| - 1), sigs[|sigs| - 1]);
      }
    }
  }

  /** With every signature present, the sources are all of them, in order,
      numbered from 1. */
  lemma {:induction false} PartySourcesAllPresent(sigs: seq<string>)
    requires forall i :: 0 <= i < |sigs| ==> sigs[i] != ""
    ensures |PartySources(sigs)| == |sigs|
    ensures forall i :: 0 <= i < |sigs| ==> PartySources(sigs)[i] == SigSource(PartyCaption(i), sigs[i])
    decreases |sigs|
  {
    if sigs != [] {
      var init := sigs[..|sigs| - 1];
      PartySourcesAllPresent(init);
      var p := PartySources(init);
      var r := PartySources(sigs);
      assert r == p + [SigSource(PartyCaption(|sigs| - 1), sigs[|sigs| - 1])];
      forall i | 0 <= i < |sigs| ensures r[i] == SigSource(PartyCaption(i), sigs[i]) {
        if i < |init| {
          assert r[i] == p[i] && init[i] == sigs[i];
        }
      }
    }
  }

  /** The signature images in the order they are drawn; an empty source is
      skipped. */
  function SignatureSources(f: SignatureFields): (r: seq<SigSource>)
    ensures forall i :: 0 <= i < |r| ==> r[i].src != ""
    ensures f.releasorSignature != "" ==> r != [] && r[0] == SigSource("Releasor Signature:", f.releasorSignature)
    ensures f.participant.Some? && f.participant.value != "" ==>
      r != [] && r[|r| - 1] == SigSource("Participant Signature:", f.participant.value)
  {
    (if f.releasorSignature == "" then [] else [SigSource("Releasor Signature:", f.releasorSignature)])
    + (if f.releaseeSignature == "" then [] else [SigSource("Releasee Signature:", f.releaseeSignature)])
    + PartySources(f.participantSignatures)
    + (if f.participant.None? || f.participant.value == "" then []
       else [SigSource("Participant Signature:", f.participant.value)])
  }

  /** With every source present, the images come in the fixed order:
      releasor, releasee, each party numbered from 1, then the participant. */
  lemma SignatureSourcesInOrder(f: SignatureFields)
    requires f.releasorSignature != "" && f.releaseeSignature != ""
    requires forall i :: 0 <= i < |f.participantSignatures| ==> f.participantSignatures[i] != ""
    requires f.participant.Some? && f.participant.value != ""
    ensures var r := SignatureSources(f); var n := |f.participantSignatures|;
      && |r| == n + 3
      && r[0] == SigSource("Releasor Signature:", f.releasorSignature)
      && r[1] == SigSource("Releasee Signature:", f.releaseeSignature)
      && (forall i :: 0 <= i < n ==> r[i + 2] == SigSource(PartyCaption(i), f.participantSignatures[i]))
      && r[n + 2] == SigSource("Participant Signature:", f.participant.value)
  {
    PartySourcesAllPresent(f.participantSignatures);
  }

  /** The document signed on the agreement screen carries no signature image;
      the single-signer one carries at most its one signature. */
  lemma StoredSignatureImages(s: Stored)
    ensures s.FromAgreement? || s.NoSignatures? ==> SignatureSources(FieldsOf(s)) == []
    ensures s.FromSignature? && s.participant.signature != "" ==>
      SignatureSources(FieldsOf(s)) == [SigSource("Participant Signature:", s.participant.signature)]
  {
    assert PartySources([]) == [];
  }

  function SignatureBlock(s: Page, g: SigSource, env: Env): Page {
    var c := Down(TextStep(MakeRoom(s, 40, env.pageHeight), [g.caption], Margin), 5);
    if env.accepts(g.src, "PNG") then Down(ImageStep(c, g.src, "PNG", Margin, 60, 30), 35)
    else Down(TextStep(c, ["Could not load " + g.caption + "."], Margin), 5)
  }

  function SignatureBlocks(s: Page, gs: seq<SigSource>, env: Env): Page
    decreases |gs|
  {
    if gs == [] then s else SignatureBlock(SignatureBlocks(s, gs[..|gs| - 1], env), gs[|gs| - 1], env)
  }

  function SignatureHeading(s: Page, date: string, env: Env): Page {
    var h := Down(TextStep(Down(MakeRoom(s, 20, env.pageHeight), 10), ["SIGNATURES"], Margin), 8);
    Down(TextStep(h, ["Signed on: " + date], Margin), 8)
  }

  function SignatureSection(s: Page, stored: Stored, env: Env): Page {
    var f := FieldsOf(stored);
    SignatureBlocks(SignatureHeading(s, f.date, env), SignatureSources(f), env)
  }

  // ------------------------------------------------------------ the document

  function Heading(formType: string, translation: Option<string>): Page {
    var t := Down(TextStep(Page(Margin, 1, []), [TitleText(formType, translation)], Margin), 10);
    Down(TextStep(t, ["SUMMARY OF DETAILS"], Margin), 8)
  }

  /** The whole document, section after section. */
  function Layout(formType: string, d: Obj<Snapshot>, stored: Stored, translation: Option<string>,
                  legal: string -> string, env: Env): Page
  {
    var s1 := Summary(Heading(formType, translation), d, env);
    var s2 := Parties(s1, PartyList(d, "releasors"), "Releasor", env);
    var s3 := Releasee(s2, d, env);
    var s4 := Parties(s3, PartyList(d, "participants"), "Party", env);
    var s5 := Photo(s4, d, env);
    var s6 := AgreementSection(s5, formType, legal, env);
    SignatureSection(s6, stored, env)
  }

  // ------------------------------------------------------------ margins

  /** Every text and image starts between the top and the bottom margin. */
  predicate InMargins(ops: seq<Op>, pageHeight: int) {
    forall i :: 0 <= i < |ops| && !ops[i].NewPage? ==> Margin <= ops[i].y <= pageHeight - Margin
  }

  predicate CursorOk(s: Page, pageHeight: int) {
    Margin <= s.y && InMargins(s.ops, pageHeight)
  }

  predicate TallEnough(env: Env) { env.pageHeight >= 2 * Margin + 60 }

  /** Drawing at a cursor inside the margins keeps the drawing inside them. */
  lemma DrawOk(s: Page, lines: seq<string>, src: string, format: string, x: int, w: int, h: int, pageHeight: int)
    requires CursorOk(s, pageHeight) && s.y <= pageHeight - Margin
    ensures CursorOk(TextStep(s, lines, x), pageHeight)
    ensures CursorOk(ImageStep(s, src, format, x, w, h), pageHeight)
  {
  }

  lemma MakeRoomOk(s: Page, h: int, env: Env)
    requires TallEnough(env) && CursorOk(s, env.pageHeight) && 0 <= h <= 60
    ensures CursorOk(MakeRoom(s, h, env.pageHeight), env.pageHeight)
    ensures MakeRoom(s, h, env.pageHeight).y + h <= env.pageHeight - Margin
  {
  }

  lemma SummaryRowOk(s: Page, e: Entry<Snapshot>, env: Env)
    requires TallEnough(env) && CursorOk(s, env.pageHeight)
    ensures CursorOk(SummaryRow(s, e, env), env.pageHeight)
  {
    if !Skipped(e.key) {
      var m := MakeRoom(s, 6, env.pageHeight);
      MakeRoomOk(s, 6, env);
      var c := TextStep(m, [FormatFieldLabel(e.key) + ":"], Margin);
      DrawOk(m, [FormatFieldLabel(e.key) + ":"], "", "", Margin, 0, 0, env.pageHeight);
      var lines := env.split(SummaryValue(e.value), ContentWidth(env) - 55);
      DrawOk(c, lines, "", "", Margin + 50, 0, 0, env.pageHeight);
    }
  }

  lemma PartyBlockOk(s: Page, p: Party, title: string, env: Env)
    requires TallEnough(env) && CursorOk(s, env.pageHeight)
    ensures CursorOk(PartyBlock(s, p, title, env), env.pageHeight)
  {
    var m := MakeRoom(s, 20, env.pageHeight);
    MakeRoomOk(s, 20, env);
    var b0 := Down(m, 4);
    DrawOk(b0, [title], "", "", Margin, 0, 0, env.pageHeight);
    var b1 := Down(TextStep(b0, [title], Margin), 6);
    DrawOk(b1, ["Name: " + PartyName(p)], "", "", Margin + 5, 0, 0, env.pageHeight);
    var b2 := Down(TextStep(b1, ["Name: " + PartyName(p)], Margin + 5), 5);
    DrawOk(b2, ["Email: " + PartyEmail(p)], "", "", Margin + 5, 0, 0, env.pageHeight);
  }

  lemma PhotoOk(s: Page, d: Obj<Snapshot>, env: Env)
    requires TallEnough(env) && CursorOk(s, env.pageHeight)
    ensures CursorOk(Photo(s, d, env), env.pageHeight)
  {
    var url := IdPhotoUrl(d);
    if url.Some? {
      var m := MakeRoom(s, 60, env.pageHeight);
      MakeRoomOk(s, 60, env);
      DrawOk(Down(m, 4), ["ID Photo:"], "", "", Margin, 0, 0, env.pageHeight);
      var c := Down(TextStep(Down(m, 4), ["ID Photo:"], Margin), 5);
      var fmt := ImageFormat(url.value);
      DrawOk(c, ["Could not load ID image."], url.value, if fmt.Some? then fmt.value else "", Margin, 80, 50,
             env.pageHeight);
    }
  }

  lemma AgreementLineOk(s: Page, line: string, env: Env)
    requires TallEnough(env) && CursorOk(s, env.pageHeight)
    ensures CursorOk(AgreementLine(s, line, env), env.pageHeight)
  {
    MakeRoomOk(s, 4, env);
    DrawOk(MakeRoom(s, 4, env.pageHeight), [line], "", "", Margin, 0, 0, env.pageHeight);
  }

  lemma {:induction false} AgreementLinesOk(s: Page, lines: seq<string>, env: Env)
    requires TallEnough(env) && CursorOk(s, env.pageHeight)
    ensures CursorOk(AgreementLines(s, lines, env), env.pageHeight)
    decreases |lines|
  {
    if lines != [] {
      AgreementLinesOk(s, lines[..|lines| - 1], env);
      AgreementLineOk(AgreementLines(s, lines[..|lines| - 1], env), lines[|lines| - 1], env);
    }
  }

  lemma AgreementSectionOk(s: Page, formType: string, legal: string -> string, env: Env)
    requires TallEnough(env) && CursorOk(s, env.pageHeight)
    ensures CursorOk(AgreementSection(s, formType, legal, env), env.pageHeight)
  {
    var m := MakeRoom(s, 20, env.pageHeight);
    MakeRoomOk(s, 20, env);
    DrawOk(Down(m, 10), ["AGREEMENT"], "", "", Margin, 0, 0, env.pageHeight);
    AgreementLinesOk(AgreementHeading(s, env), env.split(Trim(AgreementText(formType, legal)), ContentWidth(env)), env);
  }

  lemma SignatureBlockOk(s: Page, g: SigSource, env: Env)
    requires TallEnough(env) && CursorOk(s, env.pageHeight)
    ensures CursorOk(SignatureBlock(s, g, env), env.pageHeight)
  {
    var m := MakeRoom(s, 40, env.pageHeight);
    MakeRoomOk(s, 40, env);
    DrawOk(m, [g.caption], "", "", Margin, 0, 0, env.pageHeight);
    var c := Down(TextStep(m, [g.caption], Margin), 5);
    DrawOk(c, ["Could not load " + g.caption + "."], g.src, "PNG", Margin, 60, 30, env.pageHeight);
  }

  lemma {:induction false} SignatureBlocksOk(s: Page, gs: seq<SigSource>, env: Env)
    requires TallEnough(env) && CursorOk(s, env.pageHeight)
    ensures CursorOk(SignatureBlocks(s, gs, env), env.pageHeight)
    decreases |gs|
  {
    if gs != [] {
      SignatureBlocksOk(s, gs[..|gs| - 1], env);
      SignatureBlockOk(SignatureBlocks(s, gs[..|gs| - 1], env), gs[|gs| - 1], env);
    }
  }

  lemma SignatureSectionOk(s: Page, stored: Stored, env: Env)
    requires TallEnough(env) && CursorOk(s, env.pageHeight)
    ensures CursorOk(SignatureSection(s, stored, env), env.pageHeight)
  {
    var f := FieldsOf(stored);
    var m := MakeRoom(s, 20, env.pageHeight);
    MakeRoomOk(s, 20, env);
    DrawOk(Down(m, 10), ["SIGNATURES"], "", "", Margin, 0, 0, env.pageHeight);
    var h := Down(TextStep(Down(m, 10), ["SIGNATURES"], Margin), 8);
    DrawOk(h, ["Signed on: " + f.date], "", "", Margin, 0, 0, env.pageHeight);
    SignatureBlocksOk(SignatureHeading(s, f.date, env), SignatureSources(f), env);
  }

  lemma {:induction false} SummaryOk(s: Page, es: Obj<Snapshot>, env: Env)
    requires TallEnough(env) && CursorOk(s, env.pageHeight)
    ensures CursorOk(Summary(s, es, env), env.pageHeight)
    decreases |es|
  {
    if es != [] {
      SummaryOk(s, es[..|es| - 1], env);
      SummaryRowOk(Summary(s, es[..|es| - 1], env), es[|es| - 1], env);
    }
  }

  lemma {:induction false} PartiesOk(s: Page, ps: seq<Party>, prefix: string, env: Env)
    requires TallEnough(env) && CursorOk(s, env.pageHeight)
    ensures CursorOk(Parties(s, ps, prefix, env), env.pageHeight)
    decreases |ps|
  {
    if ps != [] {
      PartiesOk(s, ps[..|ps| - 1], prefix, env);
      PartyBlockOk(Parties(s, ps[..|ps| - 1], prefix, env), ps[|ps| - 1], prefix + " #" + NatToString(|ps|), env);
    }
  }

  /** On a page at least 90 mm tall, no line of text and no image of the
      document starts outside the margins. A summary value that breaks into
      many lines can still run past the bottom after its first line. */
  lemma LayoutStaysInMargins(formType: string, d: Obj<Snapshot>, stored: Stored, translation: Option<string>,
                             legal: string -> string, env: Env)
    requires TallEnough(env)
    ensures InMargins(Layout(formType, d, stored, translation, legal, env).ops, env.pageHeight)
  {
    var p0 := Page(Margin, 1, []);
    DrawOk(p0, [TitleText(formType, translation)], "", "", Margin, 0, 0, env.pageHeight);
    var t := Down(TextStep(p0, [TitleText(formType, translation)], Margin), 10);
    DrawOk(t, ["SUMMARY OF DETAILS"], "", "", Margin, 0, 0, env.pageHeight);
    var h := Heading(formType, translation);
    SummaryOk(h, d, env);
    var s1 := Summary(h, d, env);
    PartiesOk(s1, PartyList(d, "releasors"), "Releasor", env);
    var s2 := Parties(s1, PartyList(d, "releasors"), "Releasor", env);
    var v := Lookup(d, "releasee");
    if v.Some? && v.value.Record? {
      PartyBlockOk(s2, v.value.party, "Releasee", env);
    }
    var s3 := Releasee(s2, d, env);
    PartiesOk(s3, PartyList(d, "participants"), "Party", env);
    var s4 := Parties(s3, PartyList(d, "participants"), "Party", env);
    PhotoOk(s4, d, env);
    var s5 := Photo(s4, d, env);
    AgreementSectionOk(s5, formType, legal, env);
    SignatureSectionOk(AgreementSection(s5, formType, legal, env), stored, env);
  }

  // ------------------------------------------------------------ the writer

  /** A jsPDF document together with the writing cursor. */
  class PdfDocument {
    var y: int
    var pages: nat
    var ops: seq<Op>
    const pageHeight: int

    function State(): Page
      reads this
    {
      Page(y, pages, ops)
    }

    constructor (pageHeight: int)
      ensures State() == Page(Margin, 1, []) && this.pageHeight == pageHeight
    {
      y := Margin;
      pages := 1;
      ops := [];
      this.pageHeight := pageHeight;
    }

    method CheckAndAddPage(h: int)
      modifies this
      ensures State() == MakeRoom(old(State()), h, pageHeight)
    {
      if y + h > pageHeight - Margin {
        pages := pages + 1;
        ops := ops + [NewPage];
        y := Margin;
      }
    }

    /** `doc.text(lines, x, y)` */
    method Write(lines: seq<string>, x: int)
      modifies this
      ensures State() == TextStep(old(State()), lines, x)
    {
      ops := ops + [TextAt(lines, x, y)];
    }

    /** `doc.addImage(src, format, x, y, w, h)` */
    method Draw(src: string, format: string, x: int, w: int, h: int)
      modifies this
      ensures State() == ImageStep(old(State()), src, format, x, w, h)
    {
      ops := ops + [Image(src, format, x, y, w, h)];
    }

    method Advance(dy: int)
      modifies this
      ensures State() == Down(old(State()), dy)
    {
      y := y + dy;
    }
  }

  method RenderPartyInfo(doc: PdfDocument, p: Party, title: string, env: Env)
    requires doc.pageHeight == env.pageHeight
    modifies doc
    ensures doc.State() == PartyBlock(old(doc.State()), p, title, env)
  {
    doc.CheckAndAddPage(20);
    doc.Advance(4);
    doc.Write([title], Margin);
    doc.Advance(6);
    doc.Write(["Name: " + PartyName(p)], Margin + 5);
    doc.Advance(5);
    doc.Write(["Email: " + PartyEmail(p)], Margin + 5);
    doc.Advance(5);
  }

  lemma PartiesStep(s0: Page, ps: seq<Party>, i: nat, prefix: string, env: Env)
    requires i < |ps|
    ensures Parties(s0, ps[..i + 1], prefix, env)
         == PartyBlock(Parties(s0, ps[..i], prefix, env), ps[i], prefix + " #" + NatToString(i + 1), env)
  {
    assert ps[..i + 1][..i] == ps[..i];
  }

  method RenderParties(doc: PdfDocument, ps: seq<Party>, prefix: string, env: Env)
    requires doc.pageHeight == env.pageHeight
    modifies doc
    ensures doc.State() == Parties(old(doc.State()), ps, prefix, env)
  {
    ghost var s0 := doc.State();
    var i := 0;
    while i < |ps|
      invariant 0 <= i <= |ps|
      invariant doc.State() == Parties(s0, ps[..i], prefix, env)
    {
      PartiesStep(s0, ps, i, prefix, env);
      RenderPartyInfo(doc, ps[i], prefix + " #" + NatToString(i + 1), env);
      i := i + 1;
    }
    assert ps[..|ps|] == ps;
  }

  method WriteSummary(doc: PdfDocument, d: Obj<Snapshot>, env: Env)
    requires doc.pageHeight == env.pageHeight
    modifies doc
    ensures doc.State() == Summary(old(doc.State()), d, env)
  {
    ghost var s0 := doc.State();
    var i := 0;
    while i < |d|
      invariant 0 <= i <= |d|
      invariant doc.State() == Summary(s0, d[..i], env)
    {
      ghost var before := doc.State();
      var e := d[i];
      if !Skipped(e.key) {
        doc.CheckAndAddPage(6);
        doc.Write([FormatFieldLabel(e.key) + ":"], Margin);
        var lines := env.split(SummaryValue(e.value), ContentWidth(env) - 55);
        doc.Write(lines, Margin + 50);
        doc.Advance(|lines| * 5 + 1);
      }
      assert doc.State() == SummaryRow(before, e, env);
      ghost var next := d[..i + 1];
      assert next[..i] == d[..i] && next[i] == e && |next| == i + 1;
      i := i + 1;
    }
    assert d[..|d|] == d;
  }

  method WritePhoto(doc: PdfDocument, d: Obj<Snapshot>, env: Env)
    requires doc.pageHeight == env.pageHeight
    modifies doc
    ensures doc.State() == Photo(old(doc.State()), d, env)
  {
    var url := IdPhotoUrl(d);
    if url.Some? {
      doc.CheckAndAddPage(60);
      doc.Advance(4);
      doc.Write(["ID Photo:"], Margin);
      doc.Advance(5);
      var format := ImageFormat(url.value);
      if format.Some? && env.accepts(url.value, format.value) {
        doc.Draw(url.value, format.value, Margin, 80, 50);
        doc.Advance(55);
      } else {
        doc.Write(["Could not load ID image."], Margin);
        doc.Advance(5);
      }
    }
  }

  method WriteAgreement(doc: PdfDocument, formType: string, legal: string -> string, env: Env)
    requires doc.pageHeight == env.pageHeight
    modifies doc
    ensures doc.State() == AgreementSection(old(doc.State()), formType, legal, env)
  {
    doc.CheckAndAddPage(20);
    doc.Advance(10);
    doc.Write(["AGREEMENT"], Margin);
    doc.Advance(8);
    var lines := env.split(Trim(AgreementText(formType, legal)), ContentWidth(env));
    ghost var a := doc.State();
    assert a == AgreementHeading(old(doc.State()), env);
    var j := 0;
    while j < |lines|
      invariant 0 <= j <= |lines|
      invariant doc.State() == AgreementLines(a, lines[..j], env)
    {
      AgreementLinesSnoc(a, lines, j, env);
      WriteAgreementLine(doc, lines[j], env);
      j := j + 1;
    }
    assert lines[..|lines|] == lines;
  }

  /** One line of the agreement text, on a new page when it does not fit. */
  method WriteAgreementLine(doc: PdfDocument, line: string, env: Env)
    requires doc.pageHeight == env.pageHeight
    modifies doc
    ensures doc.State() == AgreementLine(old(doc.State()), line, env)
  {
    doc.CheckAndAddPage(4);
    doc.Write([line], Margin);
    doc.Advance(4);
  }

  method AddSignature(doc: PdfDocument, g: SigSource, env: Env)
    requires doc.pageHeight == env.pageHeight
    modifies doc
    ensures doc.State() == SignatureBlock(old(doc.State()), g, env)
  {
    doc.CheckAndAddPage(40);
    doc.Write([g.caption], Margin);
    doc.Advance(5);
    if env.accepts(g.src, "PNG") {
      doc.Draw(g.src, "PNG", Margin, 60, 30);
      doc.Advance(35);
    } else {
      doc.Write(["Could not load " + g.caption + "."], Margin);
      doc.Advance(5);
    }
  }

  method WriteSignatures(doc: PdfDocument, stored: Stored, env: Env)
    requires doc.pageHeight == env.pageHeight
    modifies doc
    ensures doc.State() == SignatureSection(old(doc.State()), stored, env)
  {
    doc.CheckAndAddPage(20);
    doc.Advance(10);
    doc.Write(["SIGNATURES"], Margin);
    doc.Advance(8);
    var f := FieldsOf(stored);
    doc.Write(["Signed on: " + f.date], Margin);
    doc.Advance(8);
    var sources := SignatureSources(f);
    ghost var g := doc.State();
    var k := 0;
    while k < |sources|
      invariant 0 <= k <= |sources|
      invariant doc.State() == SignatureBlocks(g, sources[..k], env)
    {
      ghost var before := doc.State();
      AddSignature(doc, sources[k], env);
      ghost var next := sources[..k + 1];
      assert next[..k] == sources[..k] && next[k] == sources[k] && |next| == k + 1;
      assert SignatureBlocks(g, next, env) == SignatureBlock(before, sources[k], env);
      k := k + 1;
    }
    assert sources[..|sources|] == sources;
  }

  /** `generatePdf`: writes the document and returns what was written. */
  method GeneratePdf(formType: string, d: Obj<Snapshot>, stored: Stored, translation: Option<string>,
                     legal: string -> string, env: Env)
    returns (r: Page)
    ensures r == Layout(formType, d, stored, translation, legal, env)
  {
    var doc := new PdfDocument(env.pageHeight);
    doc.Write([TitleText(formType, translation)], Margin);
    doc.Advance(10);
    doc.Write(["SUMMARY OF DETAILS"], Margin);
    doc.Advance(8);
    WriteSummary(doc, d, env);
    RenderParties(doc, PartyList(d, "releasors"), "Releasor", env);
    var releasee := Lookup(d, "releasee");
    if releasee.Some? && releasee.value.Record? {
      RenderPartyInfo(doc, releasee.value.party, "Releasee", env);
    }
    RenderParties(doc, PartyList(d, "participants"), "Party", env);
    WritePhoto(doc, d, env);
    WriteAgreement(doc, formType, legal, env);
    WriteSignatures(doc, stored, env);
    r := doc.State();
  }
}
