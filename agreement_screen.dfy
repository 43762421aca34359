/** The agreement screen: one signature slot per signer, a pad that writes
    the active signer's slot, and a completion step that refuses while a
    slot is empty. */
module AgreementScreen {
  import opened Common
  import opened JsObject
  import opened Values

  /** A signer's record extended with its signature image. */
  datatype SignedParty = SignedParty(party: Party, signature: string)

  /** `{ signatures, date }`, what the screen hands to the controller. */
  datatype AgreementPayload = AgreementPayload(signatures: seq<SignedParty>, date: string)

  /** `p && (p.firstName || p.name)` */
  predicate CanSign(p: Party) {
    p.firstName != "" || p.name != ""
  }

  /** The participants that sign: those with a first name or a name, in
      their original order. */
  function Signers(ps: seq<Party>): (r: seq<Party>)
    ensures |r| <= |ps|
    ensures forall p :: p in r ==> p in ps && CanSign(p)
    ensures forall p :: p in ps && CanSign(p) ==> p in r
  {
    if ps == [] then []
    else (if CanSign(ps[0]) then [ps[0]] else []) + Signers(ps[1..])
  }

  /** Filtering distributes over concatenation, so signers keep the order
      the participants had. */
  lemma {:induction false} SignersAppend(a: seq<Party>, b: seq<Party>)
    ensures Signers(a + b) == Signers(a) + Signers(b)
    decreases |a|
  {
    if a == [] {
      assert a + b == b;
    } else {
      assert (a + b)[1..] == a[1..] + b;
      SignersAppend(a[1..], b);
    }
  }

  /** The participants' current records in form data, as the screen reads
      them when it mounts. */
  function ParticipantRecords(d: Obj<Snapshot>): seq<Party> {
    var v := Lookup(d, "participants");
    if v.Some? && v.value.List? then v.value.items else []
  }

  /** A missing form type sends the user back and renders nothing. */
  predicate GoesBack(formType: string) {
    formType == ""
  }

  predicate AllSigned(slots: seq<Option<string>>) {
    forall i :: 0 <= i < |slots| ==> slots[i].Some?
  }

  /** `participants.map((p, i) => ({ ...p, signature: signatures[i] }))` */
  function Pair(signers: seq<Party>, slots: seq<Option<string>>): (r: seq<SignedParty>)
    requires |signers| == |slots| && AllSigned(slots)
    ensures |r| == |signers|
    ensures forall i :: 0 <= i < |r| ==> r[i] == SignedParty(signers[i], slots[i].value)
  {
    seq(|signers|, i requires 0 <= i < |signers| => SignedParty(signers[i], slots[i].value))
  }

  class AgreementSigning {
    const signers: seq<Party>
    var slots: seq<Option<string>>
    var active: Option<nat>
    var date: string

    predicate Valid()
      reads this
    {
      |slots| == |signers| && (active.Some? ==> active.value < |signers|)
    }

    /** Mounting: the signers are filtered from the form data, every slot
        is empty, no pad is open and the date is today's. */
    constructor (formData: Obj<Snapshot>, today: string)
      ensures signers == Signers(ParticipantRecords(formData))
      ensures Valid() && active.None? && date == today
      ensures forall i :: 0 <= i < |slots| ==> slots[i].None?
    {
      signers := Signers(ParticipantRecords(formData));
      slots := seq(|Signers(ParticipantRecords(formData))|, _ => None);
      active := None;
      date := today;
    }

    /** The sign (or edit-signature) button of signer `i`. */
    method Open(i: nat)
      requires Valid() && i < |signers|
      modifies this
      ensures Valid() && active == Some(i) && slots == old(slots) && date == old(date)
    {
      active := Some(i);
    }

    /** The pad's cancel button. */
    method ClosePad()
      requires Valid()
      modifies this
      ensures Valid() && active.None? && slots == old(slots) && date == old(date)
    {
      active := None;
    }

    /** The date input. */
    method SetDate(d: string)
      requires Valid()
      modifies this
      ensures Valid() && date == d && slots == old(slots) && active == old(active)
    {
      date := d;
    }

    /** `handleSaveSignature`; `pad` is the pad's image, `None` when the pad
        is empty. With no open pad nothing happens; otherwise only the
        active slot is written, and only from a non-empty pad, and the pad
        closes. */
    method SaveSignature(pad: Option<string>)
      requires Valid()
      modifies this
      ensures Valid() && date == old(date)
      ensures old(active).None? ==> slots == old(slots) && active.None?
      ensures old(active).Some? && pad.Some? ==> slots == old(slots)[old(active).value := pad]
      ensures pad.None? ==> slots == old(slots)
      ensures active.None?
    {
      if active.None? {
        return;
      }
      if pad.Some? {
        slots := slots[active.value := pad];
      }
      active := None;
    }

    /** The complete button is disabled while any slot is empty. */
    predicate ButtonDisabled()
      reads this
    {
      exists i :: 0 <= i < |slots| && slots[i].None?
    }

    /** `handleComplete`: refused (no payload) while any slot is empty;
        otherwise every signer, in order, with its signature, and the
        chosen date. With no signers it succeeds with an empty list. */
    method Complete() returns (r: Option<AgreementPayload>)
      requires Valid()
      ensures r.None? <==> ButtonDisabled()
      ensures r.Some? ==> |r.value.signatures| == |signers| && r.value.date == date
      ensures r.Some? ==> forall i :: 0 <= i < |signers| ==>
        r.value.signatures[i].party == signers[i] && Some(r.value.signatures[i].signature) == slots[i]
      ensures |signers| == 0 ==> r == Some(AgreementPayload([], date))
    {
      if exists i :: 0 <= i < |slots| && slots[i].None? {
        return None;
      }
      r := Some(AgreementPayload(Pair(signers, slots), date));
    }
  }

  /** `getAgreementTextComponent`: the agreement's paragraphs `p1`, `p2`, …
      read until the first whose translation is empty. `texts[i]` is the
      translation of paragraph `i + 1`; every key past the end of `texts`
      is missing and translates to `''`. The result is the longest prefix
      of non-empty paragraphs. */
  method AgreementParagraphs(texts: seq<string>) returns (r: seq<string>)
    ensures |r| <= |texts| && r == texts[..|r|]
    ensures forall i :: 0 <= i < |r| ==> r[i] != ""
    ensures |r| < |texts| ==> texts[|r|] == ""
  {
    r := [];
    var i := 1;
    while i <= |texts| && texts[i - 1] != ""
      invariant 1 <= i <= |texts| + 1
      invariant r == texts[..i - 1]
      invariant forall j :: 0 <= j < |r| ==> r[j] != ""
      decreases |texts| + 1 - i
    {
      r := r + [texts[i - 1]];
      i := i + 1;
    }
  }
}
