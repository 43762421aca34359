/** The AI contract assistant: the chat transcript fed by realtime events,
    the choice of the reply that counts as the contract draft, its title and
    file name, and the PDF of the draft.

    The realtime connection itself (tokens, WebRTC, the microphone, the data
    channel's readiness) is not part of this model. Events arrive already
    decoded as `Event` values, and what is sent to the AI is an outcome of the
    handlers. */
module CreateWithAI {
  import opened Common

  datatype Role = Assistant | User
  datatype Message = Message(role: Role, content: string)

  // ------------------------------------------------------------ greeting

  /** `user?.email?.split('@')[0] || 'there'` */
  function GreetingName(email: Option<string>): (r: string)
    ensures r != ""
    ensures r != "there" ==> email.Some? && r <= email.value && '@' !in r
    ensures email.Some? && SplitOn(email.value, '@')[0] != "" ==> r == SplitOn(email.value, '@')[0]
    ensures email.None? || SplitOn(email.value, '@')[0] == "" ==> r == "there"
  {
    if email.None? || SplitOn(email.value, '@')[0] == "" then "there" else SplitOn(email.value, '@')[0]
  }

  /** The assistant message the chat starts with. */
  function Greeting(name: string): Message {
    Message(Assistant,
      "Hello " + name + "! I can help you generate a legal document.\n\n"
      + "We'll go step by step, like a form. I'll ask one question at a time to collect the details. "
      + "When you're ready, click \"Generate Contract\" so I produce the full " + "agreement.")
  }

  // ------------------------------------------------------------ keywords

  /** The pattern that marks a reply as a contract draft. */
  const DraftKeywords: seq<string> :=
    ["agreement", "contract", "non-disclosure", "nda", "consent form", "release form", "services agreement"]

  /** The pattern that marks a line as a title. */
  const TitleKeywords: seq<string> :=
    ["agreement", "contract", "non-disclosure", "nda", "consent form", "release form"]

  /** A case-insensitive match of any of the keywords. */
  predicate Mentions(text: string, keywords: seq<string>)
    decreases |keywords|
  {
    keywords != [] && (Contains(Lower(text), keywords[0]) || Mentions(text, keywords[1..]))
  }

  predicate LooksLikeContract(text: string) { Mentions(text, DraftKeywords) }

  lemma LowerAppend(a: string, b: string)
    ensures Lower(a + b) == Lower(a) + Lower(b)
  {
    assert forall i :: 0 <= i < |a + b| ==> Lower(a + b)[i] == (Lower(a) + Lower(b))[i];
  }

  lemma {:induction false} MentionsAt(text: string, keywords: seq<string>, k: nat, i: nat)
    requires k < |keywords| && OccursAt(Lower(text), keywords[k], i)
    ensures Mentions(text, keywords)
    decreases k
  {
    if k == 0 {
      ContainsAt(Lower(text), keywords[k], i);
    } else {
      MentionsAt(text, keywords[1..], k - 1, i);
    }
  }

  // ------------------------------------------------------------ the draft

  function Assistants(ms: seq<Message>): (r: seq<Message>)
    ensures forall m :: m in r <==> m in ms && m.role == Assistant
    ensures |r| <= |ms|
  {
    if ms == [] then []
    else (if ms[0].role == Assistant then [ms[0]] else []) + Assistants(ms[1..])
  }

  lemma {:induction false} AssistantsAppend(a: seq<Message>, b: seq<Message>)
    ensures Assistants(a + b) == Assistants(a) + Assistants(b)
    decreases |a|
  {
    if a == [] {
      assert a + b == b;
    } else {
      assert (a + b)[1..] == a[1..] + b;
      AssistantsAppend(a[1..], b);
    }
  }

  /** `replies[i]` looks like a contract and no later reply does. */
  predicate LastLookingAt(replies: seq<Message>, i: int) {
    0 <= i < |replies| && LooksLikeContract(replies[i].content)
    && forall j :: i < j < |replies| ==> !LooksLikeContract(replies[j].content)
  }

  /** The last of the replies that looks like a contract. */
  function LastLooking(replies: seq<Message>): (r: Option<Message>)
    ensures r.None? <==> forall i :: 0 <= i < |replies| ==> !LooksLikeContract(replies[i].content)
    ensures r.Some? ==> exists i :: LastLookingAt(replies, i) && r.value == replies[i]
    ensures forall i :: LastLookingAt(replies, i) ==> r == Some(replies[i])
    decreases |replies|
  {
    if replies == [] then None
    else if LooksLikeContract(replies[|replies| - 1].content) then
      LastLookingLast(replies);
      Some(replies[|replies| - 1])
    else
      LastLookingInit(replies);
      LastLooking(replies[..|replies| - 1])
  }

  /** When the last reply looks like a contract, it is the last one that
      does. */
  lemma LastLookingLast(replies: seq<Message>)
    requires replies != [] && LooksLikeContract(replies[|replies| - 1].content)
    ensures forall i :: LastLookingAt(replies, i) <==> i == |replies| - 1
  {
  }

  /** When the last reply does not look like a contract, the last one that
      does lies before it. */
  lemma LastLookingInit(replies: seq<Message>)
    requires replies != [] && !LooksLikeContract(replies[|replies| - 1].content)
    ensures var init := replies[..|replies| - 1];
      && (forall i :: LastLookingAt(replies, i) <==> LastLookingAt(init, i))
      && ((forall i :: 0 <= i < |replies| ==> !LooksLikeContract(replies[i].content)) <==>
          (forall i :: 0 <= i < |init| ==> !LooksLikeContract(init[i].content)))
  {
    var init := replies[..|replies| - 1];
    assert forall i :: 0 <= i < |init| ==> init[i] == replies[i];
  }

  /** `findBestAssistantDraft`: no draft without assistant messages; the last
      assistant message that looks like a contract; failing that, the last
      assistant message. */
  function BestDraft(ms: seq<Message>): (r: Option<Message>)
    ensures r.None? <==> forall m :: m in ms ==> m.role != Assistant
    ensures r.Some? ==> r.value in ms && r.value.role == Assistant
    ensures forall i :: LastLookingAt(Assistants(ms), i) ==> r == Some(Assistants(ms)[i])
    ensures Assistants(ms) != [] && (forall i :: 0 <= i < |Assistants(ms)| ==> !LooksLikeContract(Assistants(ms)[i].content))
      ==> r == Some(Assistants(ms)[|Assistants(ms)| - 1])
  {
    var replies := Assistants(ms);
    if replies == [] then None
    else
      var l := LastLooking(replies);
      if l.Some? then
        assert l.value in replies;
        l
      else
        assert replies[|replies| - 1] in replies;
        Some(replies[|replies| - 1])
  }

  lemma LastLookingPrefix(replies: seq<Message>, i: nat)
    requires i < |replies|
    ensures LastLooking(replies[..i + 1]) ==
      if LooksLikeContract(replies[i].content) then Some(replies[i]) else LastLooking(replies[..i])
  {
    assert replies[..i + 1][i] == replies[i];
    assert replies[..i + 1][..i] == replies[..i];
  }

  /** The same search as a backward loop over the assistant messages. */
  method FindBestAssistantDraft(ms: seq<Message>) returns (r: Option<Message>)
    ensures r == BestDraft(ms)
  {
    var replies := Assistants(ms);
    if |replies| == 0 {
      return None;
    }
    var i := |replies| - 1;
    assert replies[..i + 1] == replies;
    while i >= 0
      invariant -1 <= i < |replies|
      invariant LastLooking(replies) == LastLooking(replies[..i + 1])
      decreases i + 1
    {
      LastLookingPrefix(replies, i);
      if LooksLikeContract(replies[i].content) {
        return Some(replies[i]);
      }
      i := i - 1;
    }
    assert replies[..0] == [];
    return Some(replies[|replies| - 1]);
  }

  /** The seeded greeting itself looks like a contract: it mentions the
      full "agreement". */
  lemma GreetingLooksLikeContract(name: string)
    ensures LooksLikeContract(Greeting(name).content)
  {
    var head := "Hello " + name + "! I can help you generate a legal document.\n\n"
      + "We'll go step by step, like a form. I'll ask one question at a time to collect the details. "
      + "When you're ready, click \"Generate Contract\" so I produce the full ";
    var tail := "agreement.";
    assert Greeting(name).content == head + tail;
    LowerAppend(head, tail);
    assert Lower(tail) == tail;
    var l := Lower(head + tail);
    assert l[|head|..|head| + 9] == "agreement";
    assert DraftKeywords[0] == "agreement";
    MentionsAt(Greeting(name).content, DraftKeywords, 0, |head|);
  }

  /** As written: in a chat that starts with the greeting there is always a
      draft, so the "no AI draft" branch never runs, and the greeting is the
      draft whenever no later reply mentions a keyword, for instance after
      the assistant's first question. */
  lemma GreetingIsTheDraft(name: string, rest: seq<Message>)
    requires forall m :: m in rest && m.role == Assistant ==> !LooksLikeContract(m.content)
    ensures BestDraft([Greeting(name)] + rest) == Some(Greeting(name))
  {
    GreetingLooksLikeContract(name);
    var replies := Assistants([Greeting(name)] + rest);
    AssistantsAppend([Greeting(name)], rest);
    assert Assistants([Greeting(name)]) == [Greeting(name)] + Assistants([Greeting(name)][1..]);
    assert [Greeting(name)][1..] == [];
    assert replies == [Greeting(name)] + Assistants(rest);
    assert LastLooking(replies) != None;
  }

  /** Corrected: the draft is searched among the messages after the seeded
      greeting, so there is none until the assistant has replied. */
  function ConversationDraft(ms: seq<Message>): (r: Option<Message>)
    requires |ms| >= 1
    ensures r.None? <==> forall i :: 1 <= i < |ms| ==> ms[i].role != Assistant
    ensures r.Some? ==> r.value in ms[1..] && r.value.role == Assistant
  {
    var r := BestDraft(ms[1..]);
    assert forall i :: 1 <= i < |ms| ==> ms[i] == ms[1..][i - 1];
    r
  }

  // ------------------------------------------------------------ titles

  /** The document types `detectDocType` knows, in the order it tries them. */
  const DocTypes := ["Non-Disclosure Agreement", "Service Agreement", "Consulting Agreement",
    "Employment Agreement", "Lease Agreement", "Release Form", "Consent Form", "Partnership Agreement",
    "Licensing Agreement"]

  /** Whether the `k`th test of `detectDocType` matches the lower-cased
      text `l`. */
  predicate DocRule(l: string, k: nat) {
    match k
    case 0 => Contains(l, "non-disclosure") || Contains(l, "nda")
    case 1 => Contains(l, "service agreement") || Contains(l, "services agreement")
    case 2 => Contains(l, "consulting agreement")
    case 3 => Contains(l, "employment agreement")
    case 4 => Contains(l, "lease") && Contains(l, "agreement")
    case 5 => Contains(l, "release form") || Contains(l, "release and waiver")
    case 6 => Contains(l, "consent form") || Contains(l, "informed consent")
    case 7 => Contains(l, "partnership agreement")
    case 8 => Contains(l, "licensing agreement")
    case _ => false
  }

  /** Rule `k` matches and no earlier rule does. */
  predicate FirstDocRule(l: string, k: nat) {
    k < |DocTypes| && DocRule(l, k) && forall j: nat :: j < k ==> !DocRule(l, j)
  }

  /** `detectDocType`: the first rule that matches the lower-cased text. */
  function DetectDocType(text: string): (r: Option<string>)
    ensures r.None? <==> forall k: nat :: k < |DocTypes| ==> !DocRule(Lower(text), k)
    ensures forall k: nat :: FirstDocRule(Lower(text), k) ==> r == Some(DocTypes[k])
    ensures r.Some? ==> r.value in DocTypes
  {
    var l := Lower(text);
    DocRules(l);
    if Contains(l, "non-disclosure") || Contains(l, "nda") then Some("Non-Disclosure Agreement")
    else if Contains(l, "service agreement") || Contains(l, "services agreement") then Some("Service Agreement")
    else if Contains(l, "consulting agreement") then Some("Consulting Agreement")
    else if Contains(l, "employment agreement") then Some("Employment Agreement")
    else if Contains(l, "lease") && Contains(l, "agreement") then Some("Lease Agreement")
    else if Contains(l, "release form") || Contains(l, "release and waiver") then Some("Release Form")
    else if Contains(l, "consent form") || Contains(l, "informed consent") then Some("Consent Form")
    else if Contains(l, "partnership agreement") then Some("Partnership Agreement")
    else if Contains(l, "licensing agreement") then Some("Licensing Agreement")
    else None
  }

  /** The rule table unfolded, one test per index. */
  lemma DocRules(l: string)
    ensures DocRule(l, 0) == (Contains(l, "non-disclosure") || Contains(l, "nda"))
    ensures DocRule(l, 1) == (Contains(l, "service agreement") || Contains(l, "services agreement"))
    ensures DocRule(l, 2) == Contains(l, "consulting agreement")
    ensures DocRule(l, 3) == Contains(l, "employment agreement")
    ensures DocRule(l, 4) == (Contains(l, "lease") && Contains(l, "agreement"))
    ensures DocRule(l, 5) == (Contains(l, "release form") || Contains(l, "release and waiver"))
    ensures DocRule(l, 6) == (Contains(l, "consent form") || Contains(l, "informed consent"))
    ensures DocRule(l, 7) == Contains(l, "partnership agreement")
    ensures DocRule(l, 8) == Contains(l, "licensing agreement")
  {
  }

  /** The NDA rule matches `nda` anywhere, so any text containing the word
      "standard" is classified as a non-disclosure agreement. */
  lemma StandardMeansNda(text: string)
    requires Contains(Lower(text), "standard")
    ensures DetectDocType(text) == Some("Non-Disclosure Agreement")
  {
    var l := Lower(text);
    var i: nat :| i + 8 <= |l| && OccursAt(l, "standard", i);
    assert l[i..i + 8] == "standard";
    assert l[i + 3] == 'n' && l[i + 4] == 'd' && l[i + 5] == 'a';
    assert l[i + 3..i + 6] == "nda";
    ContainsAt(l, "nda", i + 3);
  }

  /** The trimmed, non-blank lines of the pieces, in order. */
  function NonBlank(pieces: seq<string>): (r: seq<string>)
    ensures forall i :: 0 <= i < |r| ==> r[i] != "" && Trimmed(r[i])
    ensures |r| <= |pieces|
  {
    if pieces == [] then []
    else Kept(pieces[0]) + NonBlank(pieces[1..])
  }

  /** The trimmed piece, unless that is empty. */
  function Kept(piece: string): (r: seq<string>)
    ensures forall i :: 0 <= i < |r| ==> r[i] != "" && Trimmed(r[i])
    ensures |r| <= 1
  {
    if Trim(piece) == "" then [] else [Trim(piece)]
  }

  /** `map(trim).filter(Boolean)` keeps the order of the pieces: the lines of
      two runs of pieces are concatenated. */
  lemma {:induction false} NonBlankAppend(a: seq<string>, b: seq<string>)
    ensures NonBlank(a + b) == NonBlank(a) + NonBlank(b)
    decreases |a|
  {
    if a == [] {
      assert a + b == b;
    } else {
      Uncons(a, b);
      NonBlankAppend(a[1..], b);
      Regroup(Kept(a[0]), NonBlank(a[1..]), NonBlank(b));
    }
  }

  lemma NonBlankOne(p: string)
    ensures NonBlank([p]) == (if Trim(p) == "" then [] else [Trim(p)])
  {
    assert [p][1..] == [];
  }

  /** The `l`th line mentions a title keyword and no earlier one does. */
  predicate FirstTitleAt(lines: seq<string>, l: int) {
    0 <= l < |lines| && Mentions(lines[l], TitleKeywords)
    && forall j :: 0 <= j < l ==> !Mentions(lines[j], TitleKeywords)
  }

  /** `lines.find(...)` with the title pattern. */
  function FirstTitleLine(lines: seq<string>): (r: Option<string>)
    ensures r.Some? ==> r.value in lines && Mentions(r.value, TitleKeywords)
    ensures r.None? <==> forall i :: 0 <= i < |lines| ==> !Mentions(lines[i], TitleKeywords)
    ensures forall l :: FirstTitleAt(lines, l) ==> r == Some(lines[l])
  {
    if lines == [] then None
    else if Mentions(lines[0], TitleKeywords) then
      assert forall l :: FirstTitleAt(lines, l) ==> l == 0;
      Some(lines[0])
    else
      FirstTitleTail(lines);
      FirstTitleLine(lines[1..])
  }

  /** When the first line does not mention a keyword, the search goes on
      in the rest. */
  lemma FirstTitleTail(lines: seq<string>)
    requires lines != [] && !Mentions(lines[0], TitleKeywords)
    ensures forall l :: FirstTitleAt(lines, l) ==> FirstTitleAt(lines[1..], l - 1) && lines[l] == lines[1..][l - 1]
    ensures (forall i :: 0 <= i < |lines| ==> !Mentions(lines[i], TitleKeywords)) <==>
      (forall i :: 0 <= i < |lines[1..]| ==> !Mentions(lines[1..][i], TitleKeywords))
  {
    var rest := lines[1..];
    assert forall i :: 1 <= i < |lines| ==> lines[i] == rest[i - 1];
    forall l | FirstTitleAt(lines, l) ensures FirstTitleAt(rest, l - 1) {
      assert l != 0;
      forall j | 0 <= j < l - 1 ensures !Mentions(rest[j], TitleKeywords) {
        assert rest[j] == lines[j + 1];
      }
    }
  }

  function DropHashes(s: string): (r: string)
    ensures r == [] || r[0] != '#'
    ensures |r| <= |s| && r == s[|s| - |r|..]
    ensures forall i :: 0 <= i < |s| - |r| ==> s[i] == '#'
  {
    if s != [] && s[0] == '#' then DropHashes(s[1..]) else s
  }

  /** `.replace(/^#+\s*\/, '')`: leading `#`s and the white space after them. */
  function StripHeading(s: string): string {
    if s != [] && s[0] == '#' then TrimStart(DropHashes(s)) else s
  }

  /** `deriveTitleFromText`: the first non-blank line that looks like a title,
      else the first non-blank line, without a Markdown heading marker;
      `AI Legal Document` when that leaves nothing. */
  function DeriveTitle(text: string): (r: string)
    ensures r != ""
    ensures NonBlank(SplitOn(text, '\n')) == [] ==> r == "AI Legal Document"
    ensures r != "AI Legal Document" ==> Trimmed(r)
    ensures var lines := NonBlank(SplitOn(text, '\n'));
      forall l :: FirstTitleAt(lines, l) ==> r == OrDefaultTitle(CleanTitle(lines[l]))
    ensures var lines := NonBlank(SplitOn(text, '\n'));
      |lines| > 0 ==> (forall i :: 0 <= i < |lines| ==> !Mentions(lines[i], TitleKeywords)) ==>
        r == OrDefaultTitle(CleanTitle(lines[0]))
  {
    var lines := NonBlank(SplitOn(text, '\n'));
    if lines == [] then "AI Legal Document" else OrDefaultTitle(CleanTitle(TitleLine(lines)))
  }

  /** `contractLine || lines[0]` */
  function TitleLine(lines: seq<string>): (r: string)
    requires lines != []
    ensures forall l :: FirstTitleAt(lines, l) ==> r == lines[l]
    ensures (forall i :: 0 <= i < |lines| ==> !Mentions(lines[i], TitleKeywords)) ==> r == lines[0]
  {
    var pick := FirstTitleLine(lines);
    if pick.Some? then pick.value else lines[0]
  }

  /** `raw || 'AI Legal Document'` */
  function OrDefaultTitle(raw: string): string {
    if raw == "" then "AI Legal Document" else raw
  }

  /** A line without its heading marker and surrounding white space. */
  function CleanTitle(line: string): (r: string)
    ensures Trimmed(r)
  {
    Trim(StripHeading(line))
  }

  /** `detectedType || derivedTitle || 'AI Legal Document'`; the last
      fallback is never reached. */
  function ChooseTitle(text: string): (r: string)
    ensures r != ""
    ensures DetectDocType(text).Some? ==> r == DetectDocType(text).value
    ensures DetectDocType(text).None? ==> r == DeriveTitle(text)
  {
    var detected := DetectDocType(text);
    if detected.Some? then detected.value
    else if DeriveTitle(text) != "" then DeriveTitle(text)
    else "AI Legal Document"
  }

  // ------------------------------------------------------------ file names

  predicate IsAlnum(c: char) { IsLower(c) || IsDigit(c) }
  predicate IsSlugChar(c: char) { IsAlnum(c) || c == '-' }

  predicate SlugChars(s: string) {
    forall i :: 0 <= i < |s| ==> IsSlugChar(s[i])
  }

  predicate NoDoubleDash(s: string) {
    forall i :: 0 <= i < |s| - 1 ==> !(s[i] == '-' && s[i + 1] == '-')
  }

  /** Every character outside `[a-z0-9]` becomes `-`. */
  function Dashes(s: string): (r: string)
    ensures |r| == |s| && forall i :: 0 <= i < |s| ==> r[i] == (if IsAlnum(s[i]) then s[i] else '-')
    ensures SlugChars(r)
  {
    seq(|s|, i requires 0 <= i < |s| => if IsAlnum(s[i]) then s[i] else '-')
  }

  /** A run of `-` becomes one `-`. */
  function Squeeze(s: string): (r: string)
    ensures |s| > 0 ==> |r| > 0 && r[0] == s[0]
    ensures |r| <= |s|
    ensures SlugChars(s) ==> SlugChars(r)
    ensures NoDoubleDash(r)
    ensures (forall i :: 0 <= i < |s| ==> s[i] != '-') ==> r == s
    decreases |s|
  {
    if |s| < 2 then s
    else if s[0] == '-' && s[1] == '-' then Squeeze(s[1..])
    else [s[0]] + Squeeze(s[1..])
  }

  function DropLeadingDashes(s: string): (r: string)
    ensures |r| <= |s| && r == s[|s| - |r|..]
    ensures forall i :: 0 <= i < |s| - |r| ==> s[i] == '-'
    ensures r == [] || r[0] != '-'
  {
    if s != [] && s[0] == '-' then DropLeadingDashes(s[1..]) else s
  }

  function DropTrailingDashes(s: string): (r: string)
    ensures |r| <= |s| && r == s[..|r|]
    ensures forall i :: |r| <= i < |s| ==> s[i] == '-'
    ensures r == [] || r[|r| - 1] != '-'
  {
    if s != [] && s[|s| - 1] == '-' then DropTrailingDashes(s[..|s| - 1]) else s
  }

  /** A slice of a slug-alphabet string without double dashes keeps both. */
  lemma SliceKeepsSlug(s: string, i: nat, j: nat)
    requires i <= j <= |s| && SlugChars(s) && NoDoubleDash(s)
    ensures SlugChars(s[i..j]) && NoDoubleDash(s[i..j])
  {
    assert forall k :: 0 <= k < j - i ==> s[i..j][k] == s[i + k];
  }

  /** `slugify`: lower case, runs of other characters as one `-`, no `-` at
      either end, at most 80 characters, `ai-legal-document` when empty. Cut
      at 80 characters, a slug can end in `-`. */
  function Slugify(str: string): (r: string)
    ensures r != "" && |r| <= 80
    ensures SlugChars(r)
    ensures r[0] != '-'
    ensures NoDoubleDash(r)
    ensures Slug(str) == "" ==> r == "ai-legal-document"
    ensures Slug(str) != "" ==> |r| == (if |Slug(str)| > 80 then 80 else |Slug(str)|) && r == Slug(str)[..|r|]
  {
    var t := Slug(str);
    var cut := Cut(t, 80);
    if cut == "" then assert t == ""; FallbackSlug() else cut
  }

  /** `.substring(0, n)` of a slug. */
  function Cut(t: string, n: nat): (r: string)
    requires SlugChars(t) && NoDoubleDash(t) && (t == [] || t[0] != '-')
    ensures |r| <= n && SlugChars(r) && NoDoubleDash(r) && (r == [] || r[0] != '-')
    ensures |r| <= |t| && r == t[..|r|]
    ensures |t| <= n ==> r == t
    ensures |t| > n ==> |r| == n
  {
    var r := if |t| > n then t[..n] else t;
    SliceKeepsSlug(t, 0, |r|);
    r
  }

  function FallbackSlug(): (r: string)
    ensures r != [] && |r| <= 80 && SlugChars(r) && NoDoubleDash(r) && r[0] != '-'
  {
    var r := "ai-legal-document";
    assert forall i :: 0 <= i < |r| ==> r[i] in "ailegdocumnt-";
    r
  }

  /** `.toLowerCase().replace(/[^a-z0-9]+/g, '-')`: lower case, each run of
      other characters as one `-`. */
  function Squeezed(str: string): (q: string)
    ensures SlugChars(q) && NoDoubleDash(q)
  {
    Squeeze(Dashes(Lower(str)))
  }

  /** The slug before it is cut to length. */
  function Slug(str: string): (t: string)
    ensures SlugChars(t) && NoDoubleDash(t)
    ensures t == [] || (t[0] != '-' && t[|t| - 1] != '-')
    ensures var q := Squeezed(str); DashFramed(q, t, |q| - |DropLeadingDashes(q)|)
  {
    var squeezed := Squeezed(str);
    var lead := DropLeadingDashes(squeezed);
    SliceKeepsSlug(squeezed, |squeezed| - |lead|, |squeezed|);
    var t := DropTrailingDashes(lead);
    SliceKeepsSlug(lead, 0, |t|);
    TrimmedDashes(squeezed, lead, t);
    t
  }

  /** `t` is the slice of `q` starting at `i`, with only `-` around it. */
  predicate DashFramed(q: string, t: string, i: int) {
    && 0 <= i <= |q| - |t| && t == q[i..i + |t|]
    && (forall k :: 0 <= k < i ==> q[k] == '-')
    && (forall k :: i + |t| <= k < |q| ==> q[k] == '-')
  }

  /** Dropping the `-`s at the front, then at the back, leaves the slug
      framed by them. */
  lemma TrimmedDashes(q: string, lead: string, t: string)
    requires |lead| <= |q| && lead == q[|q| - |lead|..]
    requires forall k :: 0 <= k < |q| - |lead| ==> q[k] == '-'
    requires |t| <= |lead| && t == lead[..|t|]
    requires forall k :: |t| <= k < |lead| ==> lead[k] == '-'
    ensures DashFramed(q, t, |q| - |lead|)
  {
    var i := |q| - |lead|;
    assert forall k :: i <= k < |q| ==> q[k] == lead[k - i];
  }

  lemma DashesKeepsSlug(s: string)
    requires SlugChars(s)
    ensures Dashes(s) == s
  {
  }

  lemma {:induction false} SqueezeKeeps(s: string)
    requires NoDoubleDash(s)
    ensures Squeeze(s) == s
    decreases |s|
  {
    if |s| >= 2 {
      SqueezeKeeps(s[1..]);
      assert [s[0]] + s[1..] == s;
    }
  }

  /** A string that is already a slug is its own slug, so `slugify` is
      idempotent on every slug that does not end in `-`. */
  lemma SlugifyKeepsSlugs(s: string)
    requires 0 < |s| <= 80 && s[0] != '-' && s[|s| - 1] != '-' && NoDoubleDash(s) && SlugChars(s)
    ensures Slugify(s) == s
  {
    LowerKeepsSlug(s);
    DashesKeepsSlug(s);
    SqueezeKeeps(s);
    assert Squeezed(s) == s;
    assert DropLeadingDashes(s) == s;
    assert DropTrailingDashes(s) == s;
    assert Slug(s) == s;
    assert Cut(s, 80) == s;
  }

  /** Scanning left to right, a prefix without a double dash and not ending
      in `-` is copied. */
  lemma {:induction false} SqueezeKeepsHead(a: string, y: string)
    requires NoDoubleDash(a) && (a == [] || a[|a| - 1] != '-')
    ensures Squeeze(a + y) == a + Squeeze(y)
    decreases |a|
  {
    if a != [] {
      Uncons(a, y);
      if |a + y| < 2 {
        assert a == [a[0]] && y == [];
      } else {
        assert |a| >= 2 ==> a[1] == (a + y)[1];
        assert !((a + y)[0] == '-' && (a + y)[1] == '-');
        assert Squeeze(a + y) == [a[0]] + Squeeze(a[1..] + y);
        assert forall i :: 0 <= i < |a| - 1 ==> a[1..][i] == a[i + 1];
        SqueezeKeepsHead(a[1..], y);
        Regroup([a[0]], a[1..], Squeeze(y));
        assert [a[0]] + a[1..] == a;
      }
    } else {
      assert a + y == y;
    }
  }

  /** A run of `-` before a character that is not `-` becomes one `-`. */
  lemma {:induction false} SqueezeLeadingRun(d: string, b: string)
    requires d != [] && forall i :: 0 <= i < |d| ==> d[i] == '-'
    requires b == [] || b[0] != '-'
    ensures Squeeze(d + b) == "-" + Squeeze(b)
    decreases |d|
  {
    Uncons(d, b);
    if |d| == 1 {
      assert d == "-";
    } else {
      assert (d + b)[1] == d[1];
      SqueezeLeadingRun(d[1..], b);
    }
  }

  /** Each whole run of `-` becomes exactly one `-`. */
  lemma SqueezeRun(a: string, d: string, b: string)
    requires NoDoubleDash(a) && (a == [] || a[|a| - 1] != '-')
    requires d != [] && forall i :: 0 <= i < |d| ==> d[i] == '-'
    requires b == [] || b[0] != '-'
    ensures Squeeze(a + d + b) == a + "-" + Squeeze(b)
  {
    Regroup(a, d, b);
    SqueezeKeepsHead(a, d + b);
    SqueezeLeadingRun(d, b);
    Regroup(a, "-", Squeeze(b));
  }

  /** Two slugs with a run of punctuation or white space between them give
      the two slugs joined by one `-`. */
  lemma SlugJoins(a: string, w: string, b: string)
    requires a != [] && SlugChars(a) && NoDoubleDash(a) && a[0] != '-' && a[|a| - 1] != '-'
    requires b != [] && SlugChars(b) && NoDoubleDash(b) && b[0] != '-' && b[|b| - 1] != '-'
    requires w != [] && forall i :: 0 <= i < |w| ==> !IsAlnum(LowerChar(w[i]))
    ensures Slug(a + w + b) == a + "-" + b
  {
    LowerAppend(a + w, b);
    LowerAppend(a, w);
    LowerKeepsSlug(a);
    LowerKeepsSlug(b);
    var d := Dashes(Lower(w));
    assert Dashes(Lower(a + w + b)) == a + d + b by {
      DashesAppend(a + Lower(w), b);
      DashesAppend(a, Lower(w));
      DashesKeepsSlug(a);
      DashesKeepsSlug(b);
    }
    SqueezeRun(a, d, b);
    SqueezeKeeps(b);
    var q := a + "-" + b;
    assert Squeezed(a + w + b) == q;
    assert DropLeadingDashes(q) == q;
    assert DropTrailingDashes(q) == q;
  }

  lemma DashesAppend(a: string, b: string)
    ensures Dashes(a + b) == Dashes(a) + Dashes(b)
  {
    assert forall i :: 0 <= i < |a + b| ==> Dashes(a + b)[i] == (Dashes(a) + Dashes(b))[i];
  }

  lemma LowerKeepsSlug(s: string)
    requires SlugChars(s)
    ensures Lower(s) == s
  {
    assert forall i :: 0 <= i < |s| ==> LowerChar(s[i]) == s[i];
  }

  // ------------------------------------------------------------ events

  /** `{ type, text }` of one content part; a missing text is `''`. */
  datatype Part = Part(kind: string, text: string)
  datatype Output = Output(content: seq<Part>)

  /** The `delta` of an output-text event: a string, an object, or anything
      else (`null`, a number). */
  datatype Delta = DeltaString(s: string) | DeltaObject(outputs: seq<Output>) | DeltaOther

  /** A decoded data-channel message. `Other` covers every other type and a
      message that does not parse. */
  datatype Event =
    | ResponseDelta(outputs: seq<Output>)
    | OutputTextDelta(delta: Delta)
    | Done
    | Transcript(transcript: string)
    | Failure(message: Option<string>)
    | Other

  function PartsText(ps: seq<Part>): string
    decreases |ps|
  {
    if ps == [] then ""
    else PartsText(ps[..|ps| - 1]) + (if ps[|ps| - 1].kind == "output_text" then ps[|ps| - 1].text else "")
  }

  /** The texts of the `output_text` parts, in order. */
  function OutputsText(os: seq<Output>): string
    decreases |os|
  {
    if os == [] then "" else OutputsText(os[..|os| - 1]) + PartsText(os[|os| - 1].content)
  }

  lemma PartsTextSnoc(ps: seq<Part>, j: nat)
    requires j < |ps|
    ensures PartsText(ps[..j + 1]) == PartsText(ps[..j]) + (if ps[j].kind == "output_text" then ps[j].text else "")
  {
    assert ps[..j + 1][..j] == ps[..j];
  }

  lemma OutputsTextSnoc(os: seq<Output>, i: nat)
    requires i < |os|
    ensures OutputsText(os[..i + 1]) == OutputsText(os[..i]) + PartsText(os[i].content)
  {
    assert os[..i + 1][..i] == os[..i];
  }

  /** The nested loops that collect a delta's text. */
  method ExtractText(os: seq<Output>) returns (t: string)
    ensures t == OutputsText(os)
  {
    t := "";
    var i := 0;
    while i < |os|
      invariant 0 <= i <= |os|
      invariant t == OutputsText(os[..i])
    {
      var parts := os[i].content;
      var j := 0;
      ghost var t0 := t;
      while j < |parts|
        invariant 0 <= j <= |parts|
        invariant t == t0 + PartsText(parts[..j])
      {
        PartsTextSnoc(parts, j);
        if parts[j].kind == "output_text" && parts[j].text != "" {
          t := t + parts[j].text;
        }
        j := j + 1;
      }
      assert parts[..|parts|] == parts;
      OutputsTextSnoc(os, i);
      i := i + 1;
    }
    assert os[..|os|] == os;
  }

  /** The part of the page the events change. */
  datatype Chat = Chat(messages: seq<Message>, buffer: string, streaming: string, error: string, generating: bool)

  /** `flushStreamingBufferToMessages` */
  function Flush(c: Chat): (r: Chat)
    ensures r.buffer == "" && r.streaming == "" && !r.generating && r.error == c.error
    ensures Trim(c.buffer) != "" ==> r.messages == c.messages + [Message(Assistant, Trim(c.buffer))]
    ensures Trim(c.buffer) == "" ==> r.messages == c.messages
  {
    var text := Trim(c.buffer);
    Chat(if text != "" then c.messages + [Message(Assistant, text)] else c.messages, "", "", c.error, false)
  }

  /** A finished transcription of the user's speech. */
  function Heard(c: Chat, s: string): (r: Chat)
    ensures r.buffer == c.buffer && r.streaming == c.streaming && r.error == c.error && r.generating == c.generating
    ensures Trim(s) != "" ==> r.messages == c.messages + [Message(User, Trim(s))]
    ensures Trim(s) == "" ==> r.messages == c.messages
  {
    var t := Trim(s);
    if t == "" then c else c.(messages := c.messages + [Message(User, t)])
  }

  /** What one event does to the chat. */
  function Step(c: Chat, e: Event): Chat {
    match e
    case ResponseDelta(os) => Streamed(c, OutputsText(os))
    case OutputTextDelta(d) => Extended(c, DeltaBody(d))
    case Done => Flush(c)
    case Transcript(s) => Heard(c, s)
    case Failure(m) => Failed(c, m)
    case Other => c
  }

  /** A `response.delta`: a non-empty text extends the buffer and the
      streamed text; an empty one changes nothing. */
  function Streamed(c: Chat, t: string): Chat {
    if t == "" then c else c.(buffer := c.buffer + t, streaming := c.buffer + t)
  }

  /** The text an output-text delta carries. */
  function DeltaBody(d: Delta): string {
    match d
    case DeltaString(s) => s
    case DeltaObject(os) => OutputsText(os)
    case DeltaOther => ""
  }

  /** A `response.output_text.delta`: the buffer always takes the text; the
      streamed text follows it unless the buffer is still empty. */
  function Extended(c: Chat, t: string): Chat {
    var b := c.buffer + t;
    if b == "" then c.(buffer := b) else c.(buffer := b, streaming := b)
  }

  /** An `error` event: its message, or `Realtime error`; generating stops. */
  function Failed(c: Chat, m: Option<string>): Chat {
    c.(error := if m.Some? && m.value != "" then m.value else "Realtime error", generating := false)
  }

  function Replay(c: Chat, es: seq<Event>): Chat
    decreases |es|
  {
    if es == [] then c else Replay(Step(c, es[0]), es[1..])
  }

  /** A transcript message: trimmed and not empty. */
  predicate Tidy(text: string) { text != "" && Trim(text) == text }

  predicate TidyAfter(ms: seq<Message>, n: nat) {
    forall i :: n <= i < |ms| ==> Tidy(ms[i].content)
  }

  lemma TidyAppend(ms: seq<Message>, n: nat, m: Message)
    requires TidyAfter(ms, n) && Tidy(m.content)
    ensures TidyAfter(ms + [m], n)
  {
  }

  lemma TrimTwice(s: string)
    ensures Trim(Trim(s)) == Trim(s)
  {
    TrimTrimmed(Trim(s));
  }

  /** What a completion appends: the trimmed buffer, when there is one. */
  lemma DoneAppends(c: Chat)
    ensures Trim(c.buffer) == "" ==> Step(c, Done).messages == c.messages
    ensures Trim(c.buffer) != "" ==>
      Step(c, Done).messages == c.messages + [Message(Assistant, Trim(c.buffer))] && Tidy(Trim(c.buffer))
  {
    assert Step(c, Done) == Flush(c);
    TrimTwice(c.buffer);
  }

  /** What a transcript appends: its trimmed text, when there is one. */
  lemma TranscriptAppends(c: Chat, s: string)
    ensures Trim(s) == "" ==> Step(c, Transcript(s)).messages == c.messages
    ensures Trim(s) != "" ==>
      Step(c, Transcript(s)).messages == c.messages + [Message(User, Trim(s))] && Tidy(Trim(s))
  {
    StepTranscript(c, Transcript(s));
    TrimTwice(s);
  }

  lemma StepTranscript(c: Chat, e: Event)
    requires e.Transcript?
    ensures Step(c, e) == Heard(c, e.transcript)
  {
  }

  /** One event appends at most a tidy message to the transcript. */
  lemma StepAppends(c: Chat, e: Event, n: nat)
    requires TidyAfter(c.messages, n)
    ensures Step(c, e).messages == c.messages
         || exists m :: Step(c, e).messages == c.messages + [m] && Tidy(m.content)
  {
    if e.Done? {
      DoneAppends(c);
      if Trim(c.buffer) != "" {
        var m := Message(Assistant, Trim(c.buffer));
        assert Step(c, e).messages == c.messages + [m] && Tidy(m.content);
      }
    } else if e.Transcript? {
      TranscriptAppends(c, e.transcript);
      if Trim(e.transcript) != "" {
        var m := Message(User, Trim(e.transcript));
        assert Step(c, e).messages == c.messages + [m] && Tidy(m.content);
      }
    } else {
      assert Step(c, e).messages == c.messages;
    }
  }

  /** Events only ever append to the transcript, and what they append is a
      trimmed, non-empty message. */
  lemma {:induction false} ReplayAppends(c: Chat, es: seq<Event>, n: nat)
    requires TidyAfter(c.messages, n)
    ensures |c.messages| <= |Replay(c, es).messages|
    ensures Replay(c, es).messages[..|c.messages|] == c.messages
    ensures TidyAfter(Replay(c, es).messages, n)
    decreases |es|
  {
    if es != [] {
      var d := Step(c, es[0]);
      StepAppends(c, es[0], n);
      if d.messages != c.messages {
        var m :| d.messages == c.messages + [m] && Tidy(m.content);
        TidyAppend(c.messages, n, m);
      }
      assert |c.messages| <= |d.messages| && d.messages[..|c.messages|] == c.messages;
      ReplayAppends(d, es[1..], n);
      var r := Replay(d, es[1..]).messages;
      assert r[..|c.messages|] == r[..|d.messages|][..|c.messages|];
    }
  }

  predicate IsDelta(e: Event) { e.ResponseDelta? || e.OutputTextDelta? }

  function DeltaText(e: Event): string
    requires IsDelta(e)
  {
    match e
    case ResponseDelta(os) => OutputsText(os)
    case OutputTextDelta(d) => DeltaBody(d)
  }

  function DeltasText(es: seq<Event>): string
    requires forall i :: 0 <= i < |es| ==> IsDelta(es[i])
    decreases |es|
  {
    if es == [] then "" else DeltaText(es[0]) + DeltasText(es[1..])
  }

  /** A stream of deltas appends their text to the buffer in order and leaves
      the transcript alone; the `Done` that follows turns the trimmed buffer
      into one assistant message. */
  lemma {:induction false} DeltasFillBuffer(c: Chat, es: seq<Event>)
    requires forall i :: 0 <= i < |es| ==> IsDelta(es[i])
    ensures Replay(c, es).buffer == c.buffer + DeltasText(es)
    ensures Replay(c, es).messages == c.messages
    decreases |es|
  {
    if es != [] {
      var d := Step(c, es[0]);
      DeltaStep(c, es[0]);
      assert Replay(c, es) == Replay(d, es[1..]);
      DeltasFillBuffer(d, es[1..]);
      assert DeltasText(es) == DeltaText(es[0]) + DeltasText(es[1..]);
      assert c.buffer + DeltaText(es[0]) + DeltasText(es[1..]) == c.buffer + DeltasText(es);
    }
  }

  /** One delta appends its text to the buffer. */
  lemma DeltaStep(c: Chat, e: Event)
    requires IsDelta(e)
    ensures Step(c, e).buffer == c.buffer + DeltaText(e) && Step(c, e).messages == c.messages
  {
  }

  // ------------------------------------------------------------ AI PDF

  /** A line of the draft on a page at a height. */
  datatype Placed = Placed(text: string, page: nat, y: int)
  datatype Cursor = Cursor(y: int, page: nat, placed: seq<Placed>)

  /** Before each line, a cursor below `pageHeight - 20` moves to the top of
      a new page; each line advances by 5. */
  function PlaceLine(c: Cursor, line: string, pageHeight: int): Cursor {
    var d := if c.y > pageHeight - 20 then Cursor(15, c.page + 1, c.placed) else c;
    Cursor(d.y + 5, d.page, d.placed + [Placed(line, d.page, d.y)])
  }

  function PlaceLines(lines: seq<string>, pageHeight: int): Cursor
    decreases |lines|
  {
    if lines == [] then Cursor(30, 1, [])
    else PlaceLine(PlaceLines(lines[..|lines| - 1], pageHeight), lines[|lines| - 1], pageHeight)
  }

  datatype AiDocument = AiDocument(title: string, lines: seq<Placed>, pages: nat)

  /** `generateAiPdfBlob`; `split` is how the text breaks into lines. */
  method GenerateAiPdf(title: string, text: string, split: string -> seq<string>, pageHeight: int)
    returns (d: AiDocument)
    ensures d.title == title
    ensures d.lines == PlaceLines(split(text), pageHeight).placed
    ensures d.pages == PlaceLines(split(text), pageHeight).page
  {
    var lines := split(text);
    var y := 30;
    var page := 1;
    var placed := [];
    var i := 0;
    while i < |lines|
      invariant 0 <= i <= |lines|
      invariant Cursor(y, page, placed) == PlaceLines(lines[..i], pageHeight)
    {
      if y > pageHeight - 20 {
        page := page + 1;
        y := 15;
      }
      placed := placed + [Placed(lines[i], page, y)];
      y := y + 5;
      assert lines[..i + 1][..i] == lines[..i];
      i := i + 1;
    }
    assert lines[..|lines|] == lines;
    d := AiDocument(title, placed, page);
  }

  /** Lines are drawn between y = 15 and the bottom band of the page, 5 apart
      on a page, and a new page starts at the top. */
  lemma {:induction false} PlacedInBand(lines: seq<string>, pageHeight: int)
    requires pageHeight >= 50
    ensures var c := PlaceLines(lines, pageHeight);
      |c.placed| == |lines| && 15 <= c.y && c.y <= pageHeight - 15 &&
      (forall i :: 0 <= i < |c.placed| ==> 15 <= c.placed[i].y <= pageHeight - 20 && c.placed[i].page <= c.page) &&
      (|c.placed| > 0 ==> c.y == c.placed[|c.placed| - 1].y + 5 && c.page == c.placed[|c.placed| - 1].page) &&
      (forall i :: 0 < i < |c.placed| ==>
         (c.placed[i].page == c.placed[i - 1].page && c.placed[i].y == c.placed[i - 1].y + 5)
         || (c.placed[i].page == c.placed[i - 1].page + 1 && c.placed[i].y == 15))
    decreases |lines|
  {
    if lines != [] {
      PlacedInBand(lines[..|lines| - 1], pageHeight);
    }
  }

  // ------------------------------------------------------------ the page

  datatype SendOutcome = Ignored | NotConnected | Sent(text: string)

  /** What `handleSendMessage` does with the input: a blank input or a send
      in progress does nothing; without a live session nothing is sent;
      otherwise the trimmed text is sent. */
  function SendDecision(input: string, sending: bool, live: bool): (o: SendOutcome)
    ensures o == Ignored <==> Trim(input) == "" || sending
    ensures o == NotConnected <==> Trim(input) != "" && !sending && !live
    ensures o.Sent? ==> o.text == Trim(input) && Tidy(o.text)
  {
    if Trim(input) == "" || sending then Ignored
    else if !live then NotConnected
    else
      TrimTwice(input);
      Sent(Trim(input))
  }
  datatype SaveOutcome = LoginRequired | NoDraft | EmptyDraft | Upload(fileName: string, document: AiDocument)
  datatype DownloadOutcome = NothingToDownload | Download(fileName: string, document: AiDocument)

  class Conversation {
    var messages: seq<Message>
    var buffer: string
    var streaming: string
    var error: string
    var generating: bool
    var sessionActive: bool
    var channel: bool
    var input: string
    var sending: bool
    const greeting: Message

    function State(): Chat
      reads this
    {
      Chat(messages, buffer, streaming, error, generating)
    }

    /** The greeting stays first and everything after it is tidy. */
    predicate Valid()
      reads this
    {
      |messages| >= 1 && messages[0] == greeting && greeting.role == Assistant && TidyAfter(messages, 1)
    }

    /** The page opens with the greeting for the signed-in user's email. */
    constructor (email: Option<string>)
      ensures Valid() && greeting == Greeting(GreetingName(email)) && messages == [greeting]
      ensures buffer == "" && streaming == "" && error == "" && !generating
      ensures !sessionActive && !channel && input == "" && !sending
    {
      greeting := Greeting(GreetingName(email));
      messages := [Greeting(GreetingName(email))];
      buffer := "";
      streaming := "";
      error := "";
      generating := false;
      sessionActive := false;
      channel := false;
      input := "";
      sending := false;
    }

    /** The fields the realtime events leave alone. */
    function Session(): (bool, bool, string, bool)
      reads this
    {
      (sessionActive, channel, input, sending)
    }

    /** `onMessage` for one decoded event. */
    method OnEvent(e: Event)
      requires Valid()
      modifies this
      ensures Valid() && State() == Step(old(State()), e) && Session() == old(Session())
    {
      match e
      case ResponseDelta(os) => OnResponseDelta(os);
      case OutputTextDelta(d) => OnOutputTextDelta(d);
      case Done => OnDone();
      case Transcript(s) => OnTranscript(s);
      case Failure(m) =>
        error := if m.Some? && m.value != "" then m.value else "Realtime error";
        generating := false;
      case Other =>
    }

    method OnResponseDelta(os: seq<Output>)
      requires Valid()
      modifies this
      ensures Valid() && State() == Step(old(State()), ResponseDelta(os)) && Session() == old(Session())
    {
      var t := ExtractText(os);
      if t != "" {
        buffer := buffer + t;
        streaming := buffer;
      }
    }

    method OnOutputTextDelta(d: Delta)
      requires Valid()
      modifies this
      ensures Valid() && State() == Step(old(State()), OutputTextDelta(d)) && Session() == old(Session())
    {
      match d {
        case DeltaString(s) => buffer := buffer + s;
        case DeltaObject(os) =>
          var t := ExtractText(os);
          buffer := buffer + t;
        case DeltaOther =>
      }
      if buffer != "" {
        streaming := buffer;
      }
    }

    /** A tidy message joins the transcript. */
    method Append(m: Message)
      requires Valid() && Tidy(m.content)
      modifies this
      ensures Valid() && State() == old(State()).(messages := old(messages) + [m]) && Session() == old(Session())
    {
      TidyAppend(messages, 1, m);
      messages := messages + [m];
    }

    /** `flushStreamingBufferToMessages` */
    method OnDone()
      requires Valid()
      modifies this
      ensures Valid() && State() == Step(old(State()), Done) && Session() == old(Session())
    {
      ghost var before := State();
      var text := Trim(buffer);
      if text != "" {
        TrimTwice(buffer);
        Append(Message(Assistant, text));
      }
      buffer := "";
      streaming := "";
      generating := false;
      assert State() == Flush(before);
    }

    method OnTranscript(s: string)
      requires Valid()
      modifies this
      ensures Valid() && State() == Step(old(State()), Transcript(s)) && Session() == old(Session())
    {
      var text := Trim(s);
      if text != "" {
        TrimTwice(s);
        Append(Message(User, text));
      }
    }

    /** The data channel of a new session exists. */
    method OnChannelCreated()
      requires Valid()
      modifies this
      ensures Valid() && channel && State() == old(State()) && sessionActive == old(sessionActive)
      ensures input == old(input) && sending == old(sending)
    {
      channel := true;
    }

    /** The channel opened or closed. */
    method OnChannelOpenChanged(open: bool)
      requires Valid()
      modifies this
      ensures Valid() && sessionActive == open && State() == old(State()) && channel == old(channel)
      ensures input == old(input) && sending == old(sending)
    {
      sessionActive := open;
    }

    /** `stopSession`: the session ends and the streaming buffer is dropped
        without becoming a message. */
    method StopSession()
      requires Valid()
      modifies this
      ensures Valid() && !sessionActive && !channel
      ensures State() == old(State()).(buffer := "", streaming := "", generating := false)
      ensures input == old(input) && sending == old(sending)
    {
      sessionActive := false;
      channel := false;
      buffer := "";
      streaming := "";
      generating := false;
    }

    method SetInput(s: string)
      requires Valid()
      modifies this
      ensures Valid() && input == s && State() == old(State())
      ensures sessionActive == old(sessionActive) && channel == old(channel) && sending == old(sending)
    {
      input := s;
    }

    /** `handleSendMessage`: the outcome `SendDecision` gives; a send
        clears the input and appends its trimmed text. */
    method HandleSendMessage() returns (o: SendOutcome)
      requires Valid()
      modifies this
      ensures Valid()
      ensures o == SendDecision(old(input), old(sending), old(sessionActive) && old(channel))
      ensures o.Sent? ==> input == "" && messages == old(messages) + [Message(User, o.text)]
      ensures !o.Sent? ==> messages == old(messages) && input == old(input)
      ensures buffer == old(buffer) && streaming == old(streaming) && error == old(error)
      ensures generating == old(generating) && sending == old(sending)
      ensures sessionActive == old(sessionActive) && channel == old(channel)
    {
      o := SendDecision(input, sending, sessionActive && channel);
      if o.Sent? {
        Append(Message(User, o.text));
        input := "";
      }
    }

    /** `handleGenerateContract`: with a live session the assistant is asked
        for the full contract and the page shows that it is generating. */
    method HandleGenerateContract() returns (sent: bool)
      requires Valid()
      modifies this
      ensures Valid()
      ensures sent <==> old(sessionActive) && old(channel)
      ensures generating == (sent || old(generating))
      ensures messages == old(messages) && buffer == old(buffer) && streaming == old(streaming)
      ensures error == old(error) && input == old(input) && sending == old(sending)
      ensures sessionActive == old(sessionActive) && channel == old(channel)
    {
      if !sessionActive || !channel {
        return false;
      }
      generating := true;
      return true;
    }

    /** `handleSaveAsPdf` up to the upload, as written: a signed-out user is
        refused; otherwise the draft `findBestAssistantDraft` picks among all
        messages, its title and the PDF to upload. The greeting is an
        assistant message, so there is always a draft. */
    method HandleSaveAsPdf(signedIn: bool, split: string -> seq<string>, pageHeight: int)
      returns (o: SaveOutcome)
      requires Valid()
      ensures !signedIn ==> o == LoginRequired
      ensures signedIn && BestDraft(messages).None? ==> o == NoDraft
      ensures signedIn && BestDraft(messages).Some? && Trim(BestDraft(messages).value.content) == "" ==> o == EmptyDraft
      ensures signedIn && BestDraft(messages).Some? && Trim(BestDraft(messages).value.content) != "" ==>
        var text := Trim(BestDraft(messages).value.content);
        var title := ChooseTitle(text);
        o == Upload(Slugify(title) + ".pdf",
                    AiDocument(title, PlaceLines(split(text), pageHeight).placed, PlaceLines(split(text), pageHeight).page))
      ensures o != NoDraft
    {
      if !signedIn {
        return LoginRequired;
      }
      assert messages[0] in messages;
      var draft := FindBestAssistantDraft(messages);
      if draft.None? {
        return NoDraft;
      }
      var text := Trim(draft.value.content);
      if text == "" {
        return EmptyDraft;
      }
      var title := ChooseTitle(text);
      var document := GenerateAiPdf(title, text, split, pageHeight);
      return Upload(Slugify(title) + ".pdf", document);
    }

    /** `handleDownloadPdfOnly`, as written: the same document, downloaded;
        there is always something to download. */
    method HandleDownloadPdfOnly(split: string -> seq<string>, pageHeight: int) returns (o: DownloadOutcome)
      requires Valid()
      ensures BestDraft(messages).None? <==> o == NothingToDownload
      ensures o.Download? ==>
        var text := Trim(BestDraft(messages).value.content);
        var title := ChooseTitle(text);
        o == Download(Slugify(title) + ".pdf",
                      AiDocument(title, PlaceLines(split(text), pageHeight).placed, PlaceLines(split(text), pageHeight).page))
      ensures o != NothingToDownload
    {
      assert messages[0] in messages;
      var draft := FindBestAssistantDraft(messages);
      if draft.None? {
        return NothingToDownload;
      }
      var text := Trim(draft.value.content);
      var title := ChooseTitle(text);
      var document := GenerateAiPdf(title, text, split, pageHeight);
      return Download(Slugify(title) + ".pdf", document);
    }

    /** Corrected `handleSaveAsPdf`: the draft is searched after the
        greeting, and since every later message is tidy its text is never
        empty. */
    method HandleSaveAsPdfAfterGreeting(signedIn: bool, split: string -> seq<string>, pageHeight: int)
      returns (o: SaveOutcome)
      requires Valid()
      ensures !signedIn ==> o == LoginRequired
      ensures signedIn && ConversationDraft(messages).None? ==> o == NoDraft
      ensures signedIn && ConversationDraft(messages).Some? ==>
        var text := ConversationDraft(messages).value.content;
        var title := ChooseTitle(text);
        o == Upload(Slugify(title) + ".pdf",
                    AiDocument(title, PlaceLines(split(text), pageHeight).placed, PlaceLines(split(text), pageHeight).page))
      ensures o != EmptyDraft
    {
      if !signedIn {
        return LoginRequired;
      }
      var draft := FindBestAssistantDraft(messages[1..]);
      if draft.None? {
        return NoDraft;
      }
      assert draft.value in messages[1..];
      var text := Trim(draft.value.content);
      if text == "" {
        return EmptyDraft;
      }
      var title := ChooseTitle(text);
      var document := GenerateAiPdf(title, text, split, pageHeight);
      return Upload(Slugify(title) + ".pdf", document);
    }

    /** Corrected `handleDownloadPdfOnly`: nothing to download until the
        assistant has replied. */
    method HandleDownloadPdfOnlyAfterGreeting(split: string -> seq<string>, pageHeight: int) returns (o: DownloadOutcome)
      requires Valid()
      ensures ConversationDraft(messages).None? <==> o == NothingToDownload
      ensures o.Download? ==>
        var text := ConversationDraft(messages).value.content;
        var title := ChooseTitle(text);
        o == Download(Slugify(title) + ".pdf",
                      AiDocument(title, PlaceLines(split(text), pageHeight).placed, PlaceLines(split(text), pageHeight).page))
    {
      var draft := FindBestAssistantDraft(messages[1..]);
      if draft.None? {
        return NothingToDownload;
      }
      assert draft.value in messages[1..];
      var text := Trim(draft.value.content);
      var title := ChooseTitle(text);
      var document := GenerateAiPdf(title, text, split, pageHeight);
      return Download(Slugify(title) + ".pdf", document);
    }
  }
}
