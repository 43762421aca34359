/** The single-signer signature screen: a pad, a date, and a completion
    step that checks the pad before the date. */
module SignatureScreen {
  import opened Common

  /** `{ signature, date }` */
  datatype SinglePayload = SinglePayload(signature: string, date: string)

  datatype SignOutcome = NoSignature | NoDate | Signed(payload: SinglePayload)

  class SingleSigning {
    var hasSignature: bool
    var date: string

    constructor (today: string)
      ensures !hasSignature && date == today
    {
      hasSignature := false;
      date := today;
    }

    /** The pad's `onBegin`: a stroke has started. */
    method OnBegin()
      modifies this
      ensures hasSignature && date == old(date)
    {
      hasSignature := true;
    }

    /** The pad's `onEnd`, also fired by its clear button. */
    method OnEnd(padEmpty: bool)
      modifies this
      ensures hasSignature == !padEmpty && date == old(date)
    {
      hasSignature := !padEmpty;
    }

    method SetDate(d: string)
      modifies this
      ensures date == d && hasSignature == old(hasSignature)
    {
      date := d;
    }

    predicate ButtonDisabled()
      reads this
    {
      !hasSignature
    }

    /** `handleComplete`; `pad` is the pad's image, `None` when it is
        empty. An empty pad is refused first, then an empty date; only then
        does the controller receive the signature and the date. */
    method Complete(pad: Option<string>) returns (r: SignOutcome)
      ensures r == NoSignature <==> pad.None?
      ensures r == NoDate <==> pad.Some? && date == ""
      ensures r.Signed? <==> pad.Some? && date != ""
      ensures r.Signed? ==> r.payload == SinglePayload(pad.value, date)
    {
      if pad.None? {
        return NoSignature;
      }
      if date == "" {
        return NoDate;
      }
      r := Signed(SinglePayload(pad.value, date));
    }
  }

  // ------------------------------------------------------------ the pad

  /** What happens on the pad: a stroke starts, a stroke ends, or the clear
      button is pressed (which also reports a stroke end). */
  datatype PadEvent = StrokeBegin | StrokeEnd | Clear

  /** The pad's emptiness, whether a stroke is in progress, and the
      screen's `hasSignature`. */
  datatype Pad = Pad(empty: bool, drawing: bool, hasSignature: bool)

  const FreshPad := Pad(true, false, false)

  function OnPad(s: Pad, e: PadEvent): Pad {
    match e
    case StrokeBegin => Pad(s.empty, true, true)
    case StrokeEnd => Pad(false, false, true)
    case Clear => Pad(true, false, false)
  }

  function Replay(s: Pad, es: seq<PadEvent>): Pad
    decreases |es|
  {
    if es == [] then s else Replay(OnPad(s, es[0]), es[1..])
  }

  predicate PadInv(s: Pad) {
    (s.drawing ==> s.hasSignature) && (!s.drawing ==> (s.hasSignature <==> !s.empty))
  }

  /** Whatever happens on the pad, between strokes the button is enabled
      exactly when the pad holds a drawing; so a press of the enabled
      button between strokes is never refused for a missing signature. */
  lemma {:induction false} ButtonTracksPad(s: Pad, es: seq<PadEvent>)
    requires PadInv(s)
    ensures PadInv(Replay(s, es))
    ensures !Replay(s, es).drawing ==> (Replay(s, es).hasSignature <==> !Replay(s, es).empty)
    decreases |es|
  {
    if es != [] {
      ButtonTracksPad(OnPad(s, es[0]), es[1..]);
    }
  }
}
