/** One side of the WebRTC signaling dance: what a session may publish, read and conclude. */
module Signals {
  import opened Types

  datatype Signal =
    | Offer(sdp: Bytes)
    | Answer(sdp: Bytes)
    | Candidate(candidate: Bytes)
    | EndOfCandidates
    | Done

  /** An inbox entry: the signal its JSON decodes to, or nothing if it does not decode. */
  type Payload = Option<Signal>

  datatype Role = Offerer | Answerer

  /** The signals `next_signal` yields from what was popped: malformed payloads are skipped. */
  function Heard(got: seq<Payload>): seq<Signal> {
    if got == [] then []
    else Heard(got[..|got| - 1]) + (if got[|got| - 1].Some? then [got[|got| - 1].value] else [])
  }

  lemma HeardAppends(got: seq<Payload>, p: Payload)
    ensures Heard(got + [p]) == Heard(got) + if p.Some? then [p.value] else []
  {
    assert (got + [p])[..|got|] == got;
  }

  predicate Complete(sent: seq<Signal>) {
    sent != [] && sent[|sent| - 1] == Done
  }

  /** The order in which `dial` and `answer_inner` publish. */
  predicate MayPublish(role: Role, sent: seq<Signal>, got: seq<Payload>, signal: Signal) {
    if sent == [] then
      match role
      case Offerer => signal.Offer?
      case Answerer => signal.Answer? && |Heard(got)| == 1 && Heard(got)[0].Offer?
    else
      match sent[|sent| - 1]
      case Done => false
      case EndOfCandidates => signal == Done
      case _ => signal.Candidate? || signal.EndOfCandidates?
  }

  /** The signals heard by `consume_signaling`: an answerer's first signal is taken before it. */
  function Consumed(role: Role, got: seq<Payload>): seq<Signal> {
    if role.Answerer? && Heard(got) != [] then Heard(got)[1..] else Heard(got)
  }

  /** Whether the session is at a point where it polls its inbox. */
  predicate MayRead(role: Role, sent: seq<Signal>, got: seq<Payload>) {
    || (role.Answerer? && sent == [] && Heard(got) == [])
    || (Complete(sent) && forall g :: g in Consumed(role, got) ==> !g.Offer? && !g.Done?)
  }

  /** Whether the dance has run to its end: the peer's `Done` was read, and no stray offer. */
  predicate Concluded(role: Role, sent: seq<Signal>, got: seq<Payload>) {
    && Complete(sent)
    && var read := Consumed(role, got);
       && read != [] && read[|read| - 1] == Done
       && forall g :: g in read ==> !g.Offer?
  }

  /** The published language: (Offer or Answer) Candidate* EndOfCandidates Done, or a prefix of it. */
  predicate Script(role: Role, sent: seq<Signal>) {
    forall k :: 0 <= k < |sent| ==> InPlace(role, sent, k)
  }

  predicate InPlace(role: Role, sent: seq<Signal>, k: nat)
    requires k < |sent|
  {
    match sent[k]
    case Offer(_) => k == 0 && role.Offerer?
    case Answer(_) => k == 0 && role.Answerer?
    case Candidate(_) => k == 1 || (1 < k && sent[k - 1].Candidate?)
    case EndOfCandidates => k == 1 || (1 < k && sent[k - 1].Candidate?)
    case Done => 1 < k && sent[k - 1].EndOfCandidates?
  }

  /** Publishing in order never leaves the language. */
  lemma PublishKeepsScript(role: Role, sent: seq<Signal>, got: seq<Payload>, signal: Signal)
    requires Script(role, sent) && MayPublish(role, sent, got, signal)
    ensures Script(role, sent + [signal])
  {
    forall k | 0 <= k < |sent| + 1
      ensures InPlace(role, sent + [signal], k)
    {
      if k < |sent| {
        assert InPlace(role, sent, k);
      } else if k > 0 {
        assert InPlace(role, sent, k - 1);
      }
    }
  }
}
