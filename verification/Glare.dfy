/**
 * Both sides offer at once. Whether a dance can still succeed is decided by the signals still to
 * come when it happens: this half proves that, with nothing stale among them, it cannot.
 */
module Glare {
  import opened Types
  import opened Signals
  import opened Endpoint
  import opened TwoParty
  import opened Dances

  /** Both slots are held by offerers to whom nothing has been delivered yet. */
  predicate BothOffer(p: Pair) {
    OffersUnheard(p[0]) && OffersUnheard(p[1])
  }

  predicate OffersUnheard(s: Side) {
    Offering(s) && s.end.got == [] && s.end.inbox == []
  }

  predicate Offering(s: Side) {
    s.end.Busy? && s.end.role.Offerer?
  }

  /** An offer of `peer`'s is on its way, or its session may still publish one. */
  predicate OfferComing(peer: Side) {
    || (exists k :: 0 <= k < |peer.flight| && peer.flight[k].Offer?)
    || (peer.end.Busy? && peer.end.role.Offerer? && peer.end.sent == [])
  }

  function OffersIn(signals: seq<Signal>): nat {
    if signals == [] then 0 else (if signals[0].Offer? then 1 else 0) + OffersIn(signals[1..])
  }

  /** The offers of `peer`'s on their way, and the one its session may still publish. */
  function OffersToCome(peer: Side): nat {
    OffersIn(peer.flight) + if peer.end.Busy? && peer.end.role.Offerer? && peer.end.sent == [] then 1 else 0
  }

  /**
   * No new dial, and no session gives up while an offer of the other's is still to come, unless
   * what it heard ends it.
   */
  predicate GlareStep(p: Pair, s: PairStep)
    requires PairEnabled(p, s)
  {
    s.Act? ==>
      && !s.step.Claim?
      && (s.step.GiveUp? ==> ForcedOut(p[s.i].end) || !OfferComing(p[1 - s.i]))
  }

  predicate GlareRun(p: Pair, steps: seq<PairStep>)
    requires PairRun(p, steps)
    decreases |steps|
  {
    steps == [] || (GlareStep(p, steps[0]) && GlareRun(PairAfter(p, steps[0]), steps[1..]))
  }

  // --- what decides an offerer's dance --------------------------------------------------------

  /** The signals that end an offerer's reading: an offer fails it, a `Done` concludes it. */
  predicate Decides(signal: Signal) {
    signal.Offer? || signal.Done?
  }

  function FirstDeciding(signals: seq<Signal>): (k: nat)
    ensures k <= |signals| && (k < |signals| ==> Decides(signals[k]))
    ensures forall m :: 0 <= m < k ==> !Decides(signals[m])
  {
    if signals == [] || Decides(signals[0]) then 0 else 1 + FirstDeciding(signals[1..])
  }

  /**
   * Of what `peer` has on its way or may still publish, the first offer or `Done` is an offer, with
   * room for it in an inbox that takes `room` more; or neither will come.
   */
  predicate Clear(peer: Side, room: int) {
    var k := FirstDeciding(peer.flight);
    if k < |peer.flight| then peer.flight[k].Offer? && k < room
    else match peer.end
         case Busy(Offerer, sent, _, _) => if sent == [] then k < room else Complete(sent)
         case _ => true
  }

  predicate NoOffer(xs: seq<Payload>) {
    forall k :: 0 <= k < |xs| ==> !(xs[k].Some? && xs[k].value.Offer?)
  }

  predicate Undecided(xs: seq<Payload>) {
    forall k :: 0 <= k < |xs| ==> !(xs[k].Some? && Decides(xs[k].value))
  }

  predicate OfferAt(xs: seq<Payload>, k: nat) {
    k < |xs| && xs[k].Some? && xs[k].value.Offer? && Undecided(xs[..k])
  }

  /** An offer stands before any `Done`. */
  predicate OfferFirst(xs: seq<Payload>) {
    exists k :: 0 <= k < |xs| && OfferAt(xs, k)
  }

  /**
   * A side that cannot register: its own offerer hears an offer before any `Done`, or never a
   * `Done`; and once that session is gone no offer is left for an answerer to hear.
   */
  predicate Barred(s: Side, peer: Side) {
    match s.end
    case Idle => !OfferComing(peer)
    case Busy(Answerer, sent, got, inbox) => sent == [] && NoOffer(got) && NoOffer(inbox) && !OfferComing(peer)
    case Busy(Offerer, _, got, inbox) =>
      OfferFirst(got + inbox) || (Undecided(got + inbox) && Clear(peer, INBOX_CAP - |inbox|))
  }

  lemma {:induction false} HeardWasGot(got: seq<Payload>, signal: Signal)
    ensures signal in Heard(got) <==> Some(signal) in got
  {
    if got != [] {
      var front := got[..|got| - 1];
      HeardWasGot(front, signal);
      assert got == front + [got[|got| - 1]];
    }
  }

  lemma OfferBeforeDone(got: seq<Payload>, inbox: seq<Payload>) returns (k: nat)
    requires (OfferFirst(got + inbox) || Undecided(got + inbox)) && Some(Done) in got
    ensures k < |got| && got[k].Some? && got[k].value.Offer?
  {
    var all := got + inbox;
    var d :| 0 <= d < |got| && got[d] == Some(Done);
    assert all[d] == Some(Done);
    k :| 0 <= k < |all| && OfferAt(all, k);
    forall m | 0 <= m < k ensures !(all[m].Some? && Decides(all[m].value)) {
      assert all[..k][m] == all[m];
    }
    assert k < d;
  }

  /** An offerer that hears an offer before any `Done`, or no `Done` at all, cannot conclude. */
  lemma OffererCannotConclude(sent: seq<Signal>, got: seq<Payload>, inbox: seq<Payload>)
    requires OfferFirst(got + inbox) || Undecided(got + inbox)
    ensures !Concluded(Offerer, sent, got)
  {
    HeardWasGot(got, Done);
    if Some(Done) in got {
      var k := OfferBeforeDone(got, inbox);
      HeardWasGot(got, got[k].value);
    }
  }

  lemma AnswererStaysSilent(got: seq<Payload>, signal: Signal)
    requires NoOffer(got)
    ensures !MayPublish(Answerer, [], got, signal)
  {
    if Heard(got) != [] {
      HeardWasGot(got, Heard(got)[0]);
    }
  }

  // --- every step keeps both sides barred -----------------------------------------------------

  lemma SayingKeepsClear(s: Side, peer: Side, signal: Signal, room: int)
    requires Clear(s, room) && EndEnabled(s.end, Say(signal)) && s.end.role.Offerer?
    ensures Clear(ActOn(s, peer, Say(signal)), room)
  {
    FirstDecidingAppends(s.flight, signal);
  }

  lemma {:induction false} FirstDecidingAppends(signals: seq<Signal>, signal: Signal)
    ensures FirstDeciding(signals + [signal])
            == FirstDeciding(signals) + if FirstDeciding(signals) == |signals| && !Decides(signal) then 1 else 0
  {
    if signals == [] {
      assert ([] + [signal])[1..] == [];
    } else {
      assert (signals + [signal])[1..] == signals[1..] + [signal];
      FirstDecidingAppends(signals[1..], signal);
    }
  }

  lemma SayingBringsNoOffer(s: Side, peer: Side, signal: Signal)
    requires EndEnabled(s.end, Say(signal)) && s.end.role.Offerer? && !OfferComing(s)
    ensures !OfferComing(ActOn(s, peer, Say(signal)))
  {
    var s' := ActOn(s, peer, Say(signal));
    forall k | 0 <= k < |s'.flight| ensures !s'.flight[k].Offer? {
      assert k < |s.flight| ==> s'.flight[k] == s.flight[k];
    }
  }

  lemma SayKeepsBarred(s: Side, peer: Side, signal: Signal)
    requires Barred(s, peer) && Barred(peer, s) && EndEnabled(s.end, Say(signal))
    ensures Barred(ActOn(s, peer, Say(signal)), peer) && Barred(peer, ActOn(s, peer, Say(signal)))
  {
    if s.end.role.Answerer? {
      AnswererStaysSilent(s.end.got, signal);
    } else {
      if peer.end.Busy? && peer.end.role.Offerer? {
        if !OfferFirst(peer.end.got + peer.end.inbox) {
          SayingKeepsClear(s, peer, signal, INBOX_CAP - |peer.end.inbox|);
        }
      } else {
        SayingBringsNoOffer(s, peer, signal);
      }
    }
  }

  /** What a side does that neither publishes nor claims leaves its peer barred. */
  lemma QuietKeepsPeerBarred(s: Side, peer: Side, step: EndStep)
    requires Barred(peer, s) && EndEnabled(s.end, step) && (step.Hear? || step.GiveUp? || step.Conclude?)
    ensures Barred(peer, ActOn(s, peer, step))
  {
    var s' := ActOn(s, peer, step);
    assert OfferComing(s') ==> OfferComing(s);
  }

  lemma HearKeepsBarred(s: Side, peer: Side)
    requires Barred(s, peer) && EndEnabled(s.end, Hear)
    ensures Barred(ActOn(s, peer, Hear), peer)
  {
    var s' := ActOn(s, peer, Hear);
    assert s'.end.got + s'.end.inbox == s.end.got + s.end.inbox;
  }

  lemma ClearMovesOn(peer: Side, room: int)
    requires Clear(peer, room) && peer.flight != [] && !Decides(peer.flight[0])
    ensures Clear(peer.(flight := peer.flight[1..]), room - 1)
    ensures room <= 0 ==> Clear(peer.(flight := peer.flight[1..]), room)
  {
  }

  lemma FileKeepsOfferFirst(xs: seq<Payload>, x: Payload)
    requires OfferFirst(xs)
    ensures OfferFirst(xs + [x])
  {
    var k :| 0 <= k < |xs| && OfferAt(xs, k);
    assert (xs + [x])[..k] == xs[..k];
    assert OfferAt(xs + [x], k);
  }

  /** The next signal reaching an offerer that has heard nothing decisive. */
  lemma OffererTakes(s: Side, peer: Side)
    requires s.end.Busy? && s.end.role.Offerer? && Undecided(s.end.got + s.end.inbox)
    requires Clear(peer, INBOX_CAP - |s.end.inbox|) && peer.flight != []
    ensures Barred(Take(s, peer), peer.(flight := peer.flight[1..]))
  {
    var all, x := s.end.got + s.end.inbox, peer.flight[0];
    var s' := Take(s, peer);
    if |s.end.inbox| < INBOX_CAP {
      assert s'.end.got + s'.end.inbox == all + [Some(x)];
    }
    if Decides(x) {
      assert (all + [Some(x)])[..|all|] == all;
      assert OfferAt(all + [Some(x)], |all|);
    } else {
      ClearMovesOn(peer, INBOX_CAP - |s.end.inbox|);
    }
  }

  lemma DeliveringBringsNoOffer(peer: Side)
    requires !OfferComing(peer) && peer.flight != []
    ensures !peer.flight[0].Offer? && !OfferComing(peer.(flight := peer.flight[1..]))
  {
    var rest := peer.flight[1..];
    forall k | 0 <= k < |rest| ensures !rest[k].Offer? {
      assert rest[k] == peer.flight[k + 1];
    }
  }

  lemma TakeKeepsBarred(s: Side, peer: Side)
    requires Barred(s, peer) && peer.flight != []
    ensures Barred(Take(s, peer), peer.(flight := peer.flight[1..]))
  {
    if s.end.Idle? || s.end.role.Answerer? {
      DeliveringBringsNoOffer(peer);
    } else if OfferFirst(s.end.got + s.end.inbox) {
      FileKeepsOfferFirst(s.end.got + s.end.inbox, Some(peer.flight[0]));
      assert s.end.got + s.end.inbox + [Some(peer.flight[0])] == s.end.got + (s.end.inbox + [Some(peer.flight[0])]);
    } else {
      OffererTakes(s, peer);
    }
  }

  lemma TakingKeepsPeerBarred(s: Side, peer: Side)
    requires Barred(peer, s) && peer.flight != []
    ensures Barred(peer.(flight := peer.flight[1..]), Take(s, peer))
  {
    var s' := Take(s, peer);
    assert OfferComing(s') ==> OfferComing(s);
  }

  lemma ActKeepsBarred(s: Side, peer: Side, step: EndStep)
    requires Barred(s, peer) && Barred(peer, s) && EndEnabled(s.end, step) && !step.File? && !step.Claim?
    requires step.GiveUp? ==> !OfferComing(peer)
    ensures Barred(ActOn(s, peer, step), peer) && Barred(peer, ActOn(s, peer, step))
    ensures ActOn(s, peer, step).wins == s.wins
  {
    match step {
      case Say(signal) => SayKeepsBarred(s, peer, signal);
      case Hear =>
        HearKeepsBarred(s, peer);
        QuietKeepsPeerBarred(s, peer, step);
      case GiveUp => QuietKeepsPeerBarred(s, peer, step);
      case Conclude =>
        if s.end.role.Offerer? {
          OffererCannotConclude(s.end.sent, s.end.got, s.end.inbox);
        }
    }
  }

  predicate BothBarred(s: Side, peer: Side) {
    Barred(s, peer) && Barred(peer, s)
  }

  /** A step of one side, or a delivery to it, keeps both barred and registers nothing. */
  lemma SideKeepsBarred(p: Pair, s: PairStep)
    requires s.i < 2 && BothBarred(p[s.i], p[1 - s.i]) && PairEnabled(p, s)
    requires s.Act? ==> !s.step.Claim? && (s.step.GiveUp? ==> !OfferComing(p[1 - s.i]))
    ensures var p' := PairAfter(p, s);
            && BothBarred(p'[s.i], p'[1 - s.i])
            && p'[s.i].wins == p[s.i].wins && p'[1 - s.i].wins == p[1 - s.i].wins
  {
    if s.Act? {
      ActKeepsBarred(p[s.i], p[1 - s.i], s.step);
    } else {
      TakeKeepsBarred(p[s.i], p[1 - s.i]);
      TakingKeepsPeerBarred(p[s.i], p[1 - s.i]);
    }
  }

  // --- an offerer that is forced out leaves no offer to answer ----------------------------------

  predicate HasOffer(xs: seq<Payload>) {
    exists k :: 0 <= k < |xs| && xs[k].Some? && xs[k].value.Offer?
  }

  /** An offerer is to get one offer at most, counting the one it may have got. */
  predicate OneOfferAtMost(s: Side, peer: Side) {
    s.end.Busy? && s.end.role.Offerer? ==>
      OffersToCome(peer) + (if HasOffer(s.end.got) || HasOffer(s.end.inbox) then 1 else 0) <= 1
  }

  lemma {:induction false} NoneIn(signals: seq<Signal>)
    ensures OffersIn(signals) == 0 <==> forall k :: 0 <= k < |signals| ==> !signals[k].Offer?
  {
    if signals != [] {
      NoneIn(signals[1..]);
      assert forall k :: 0 < k < |signals| ==> signals[k] == signals[1..][k - 1];
    }
  }

  lemma NoneToCome(peer: Side)
    ensures OffersToCome(peer) == 0 <==> !OfferComing(peer)
  {
    NoneIn(peer.flight);
  }

  lemma {:induction false} OffersAppend(signals: seq<Signal>, signal: Signal)
    ensures OffersIn(signals + [signal]) == OffersIn(signals) + if signal.Offer? then 1 else 0
  {
    if signals == [] {
      assert ([] + [signal])[1..] == [];
    } else {
      assert (signals + [signal])[1..] == signals[1..] + [signal];
      OffersAppend(signals[1..], signal);
    }
  }

  /** Publishing an offer fulfils it; nothing else a session publishes is one. */
  lemma SayKeepsOffersToCome(s: Side, peer: Side, signal: Signal)
    requires EndEnabled(s.end, Say(signal))
    ensures OffersToCome(ActOn(s, peer, Say(signal))) == OffersToCome(s)
  {
    OffersAppend(s.flight, signal);
  }

  lemma ActKeepsOneOffer(s: Side, peer: Side, step: EndStep)
    requires OneOfferAtMost(s, peer) && OneOfferAtMost(peer, s) && EndEnabled(s.end, step)
    requires !step.File? && !step.Claim?
    ensures OneOfferAtMost(ActOn(s, peer, step), peer) && OneOfferAtMost(peer, ActOn(s, peer, step))
  {
    match step {
      case Say(signal) => SayKeepsOffersToCome(s, peer, signal);
      case Hear =>
        var s' := ActOn(s, peer, Hear);
        HearKeepsOffers(s.end);
        assert OffersToCome(s') == OffersToCome(s);
      case GiveUp => assert OffersToCome(ActOn(s, peer, step)) <= OffersToCome(s);
      case Conclude => assert OffersToCome(ActOn(s, peer, step)) <= OffersToCome(s);
    }
  }

  lemma HearKeepsOffers(e: End)
    requires EndEnabled(e, Hear)
    ensures var e' := EndAfter(e, Hear); HasOffer(e'.got) || HasOffer(e'.inbox) ==> HasOffer(e.got) || HasOffer(e.inbox)
  {
    var e' := EndAfter(e, Hear);
    if HasOffer(e'.got) {
      var k :| 0 <= k < |e'.got| && e'.got[k].Some? && e'.got[k].value.Offer?;
      assert k < |e.got| ==> e.got[k] == e'.got[k];
      assert k == |e.got| ==> e.inbox[0] == e'.got[k];
    } else if HasOffer(e'.inbox) {
      var k :| 0 <= k < |e'.inbox| && e'.inbox[k].Some? && e'.inbox[k].value.Offer?;
      assert e.inbox[k + 1] == e'.inbox[k];
    }
  }

  lemma TakeKeepsOneOffer(s: Side, peer: Side)
    requires OneOfferAtMost(s, peer) && peer.flight != []
    ensures OneOfferAtMost(Take(s, peer), peer.(flight := peer.flight[1..]))
  {
    var s', peer' := Take(s, peer), peer.(flight := peer.flight[1..]);
    assert OffersToCome(peer') + (if peer.flight[0].Offer? then 1 else 0) == OffersToCome(peer);
    if s.end.Busy? && HasOffer(s'.end.inbox) {
      var k :| 0 <= k < |s'.end.inbox| && s'.end.inbox[k].Some? && s'.end.inbox[k].value.Offer?;
      assert k < |s.end.inbox| ==> s.end.inbox[k] == s'.end.inbox[k];
    }
  }

  lemma TakingKeepsPeersOneOffer(s: Side, peer: Side)
    requires OneOfferAtMost(peer, s) && peer.flight != []
    ensures OneOfferAtMost(peer.(flight := peer.flight[1..]), Take(s, peer))
  {
    assert OffersToCome(Take(s, peer)) <= OffersToCome(s);
  }

  /** Whoever is forced out of a barred dance has no offer coming any more. */
  lemma ForcedOutIsLate(s: Side, peer: Side)
    requires Barred(s, peer) && OneOfferAtMost(s, peer) && ForcedOut(s.end)
    ensures !OfferComing(peer)
  {
    if s.end.role.Offerer? {
      var k :| 0 <= k < |Heard(s.end.got)| && Heard(s.end.got)[k].Offer?;
      HeardWasGot(s.end.got, Heard(s.end.got)[k]);
      assert HasOffer(s.end.got);
      NoneToCome(peer);
    }
  }

  predicate Doomed(s: Side, peer: Side) {
    BothBarred(s, peer) && OneOfferAtMost(s, peer) && OneOfferAtMost(peer, s)
  }

  lemma SideStaysDoomed(p: Pair, s: PairStep)
    requires s.i < 2 && Doomed(p[s.i], p[1 - s.i]) && PairEnabled(p, s) && GlareStep(p, s)
    ensures var p' := PairAfter(p, s);
            && Doomed(p'[s.i], p'[1 - s.i])
            && p'[s.i].wins == p[s.i].wins && p'[1 - s.i].wins == p[1 - s.i].wins
  {
    var me, peer := p[s.i], p[1 - s.i];
    if s.Act? && s.step.GiveUp? && ForcedOut(me.end) {
      ForcedOutIsLate(me, peer);
    }
    SideKeepsBarred(p, s);
    if s.Act? {
      ActKeepsOneOffer(me, peer, s.step);
    } else {
      TakeKeepsOneOffer(me, peer);
      TakingKeepsPeersOneOffer(me, peer);
    }
  }

  lemma StepStaysDoomed(p: Pair, s: PairStep)
    requires Doomed(p[0], p[1]) && PairEnabled(p, s) && GlareStep(p, s)
    ensures var p' := PairAfter(p, s);
            Doomed(p'[0], p'[1]) && p'[0].wins == p[0].wins && p'[1].wins == p[1].wins
  {
    SideStaysDoomed(p, s);
  }

  lemma {:induction false} DoomedNeverRegister(p: Pair, steps: seq<PairStep>)
    requires Doomed(p[0], p[1]) && PairRun(p, steps) && GlareRun(p, steps)
    ensures PairEnd(p, steps)[0].wins == p[0].wins && PairEnd(p, steps)[1].wins == p[1].wins
    decreases |steps|
  {
    if steps != [] {
      StepStaysDoomed(p, steps[0]);
      DoomedNeverRegister(PairAfter(p, steps[0]), steps[1..]);
    }
  }
}
