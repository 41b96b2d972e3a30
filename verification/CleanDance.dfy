/**
 * The undisturbed dance: one side offers, the other answers, nobody gives up or dials again, and
 * neither publishes more signals than an inbox holds.
 */
module CleanDance {
  import opened Signals
  import opened Endpoint
  import opened TwoParty
  import opened Dances

  const Dialed: Pair := [Fresh.(end := Busy(Offerer, [], [], [])), Fresh]

  /** Side 0 offers, side 1 answers. */
  function RoleOf(i: nat): Role {
    if i == 0 then Offerer else Answerer
  }

  predicate CleanStep(s: PairStep) {
    s.Deliver? || s.step.Say? || s.step.Hear? || s.step.Conclude?
  }

  predicate WithinCap(p: Pair) {
    |p[0].log| <= INBOX_CAP && |p[1].log| <= INBOX_CAP
  }

  /** What a side is at: not called yet, dancing its one session, or done with everything heard. */
  predicate OnScript(role: Role, s: Side, peer: Side) {
    && Script(role, s.log)
    && if s.wins > 0 then
         s.wins == 1 && s.end.Idle? && Complete(s.log) && Complete(peer.log) && peer.flight == []
       else if s.end.Idle? then
         role.Answerer? && s.log == [] && Arrived(peer) == 0
       else
         && s.end.role == role && s.end.sent == s.log && s.from == 0 && !s.lost
         && (role.Answerer? && s.log == [] ==> |s.end.got| <= 1)
  }

  predicate BothOnScript(role: Role, s: Side, peer: Side) {
    OnScript(role, s, peer) && OnScript(Flip(role), peer, s)
  }

  predicate Clean(p: Pair) {
    PairInv(p) && BothOnScript(Offerer, p[0], p[1])
  }

  /** In a script `Done` is last. */
  lemma DoneIsLast(role: Role, log: seq<Signal>, k: nat)
    requires Script(role, log) && k < |log| && log[k] == Done
    ensures k == |log| - 1
  {
    assert InPlace(role, log, k);
    assert k + 1 < |log| ==> InPlace(role, log, k + 1);
  }

  /**
   * Concluding, a session has heard its peer's script from the opening to `Done`, and nothing of it
   * is left over to be taken for the start of another.
   */
  lemma ConcludesOnWholeScript(role: Role, s: Side, peer: Side)
    requires SideInv(s, peer) && OnScript(role, s, peer) && Script(Flip(role), peer.log) && EndEnabled(s.end, Conclude)
    ensures Heard(s.end.got) == peer.log && Complete(peer.log) && s.end.inbox == [] && peer.flight == []
  {
    HeardAStretch(s, peer);
    ConcludedHeardDone(s.end.role, s.end.sent, s.end.got);
    DoneIsLast(Flip(role), peer.log, |s.end.got| - 1);
  }

  lemma SayStaysOnScript(role: Role, s: Side, peer: Side, signal: Signal)
    requires OnScript(role, s, peer) && EndEnabled(s.end, Say(signal))
    ensures OnScript(role, ActOn(s, peer, Say(signal)), peer)
  {
    PublishKeepsScript(role, s.end.sent, s.end.got, signal);
  }

  /** A session that has published `Done` has nothing more to say, so its peer's view stays. */
  lemma SayKeepsPeerOnScript(role: Role, s: Side, peer: Side, signal: Signal)
    requires OnScript(role, s, peer) && OnScript(Flip(role), peer, s) && EndEnabled(s.end, Say(signal))
    ensures OnScript(Flip(role), peer, ActOn(s, peer, Say(signal)))
  {
    assert s.end.sent == s.log;
  }

  lemma FirstHeard(s: Side, peer: Side)
    requires StretchInv(s, peer) && LogInv(peer) && s.end.Busy? && !s.lost
    ensures |Heard(s.end.got)| == |s.end.got|
  {
    HeardAStretch(s, peer);
  }

  lemma HearStaysOnScript(role: Role, s: Side, peer: Side)
    requires SideInv(s, peer) && OnScript(role, s, peer) && EndEnabled(s.end, Hear)
    ensures OnScript(role, ActOn(s, peer, Hear), peer)
  {
    FirstHeard(s, peer);
  }

  lemma HearKeepsPeerOnScript(role: Role, s: Side, peer: Side, step: EndStep)
    requires OnScript(role, peer, s) && EndEnabled(s.end, step) && (step.Hear? || step.Conclude?)
    ensures OnScript(role, peer, ActOn(s, peer, step))
  {
  }

  lemma ConcludeStaysOnScript(role: Role, s: Side, peer: Side)
    requires SideInv(s, peer) && OnScript(role, s, peer) && Script(Flip(role), peer.log) && EndEnabled(s.end, Conclude)
    ensures OnScript(role, ActOn(s, peer, Conclude), peer)
  {
    ConcludesOnWholeScript(role, s, peer);
  }

  lemma TakeStaysOnScript(role: Role, s: Side, peer: Side)
    requires SideInv(s, peer) && OnScript(role, s, peer) && peer.flight != [] && |peer.log| <= INBOX_CAP
    ensures OnScript(role, Take(s, peer), peer.(flight := peer.flight[1..]))
  {
    if s.end.Busy? {
      assert |s.end.got + s.end.inbox| == Arrived(peer) < |peer.log|;
    }
  }

  lemma TakeKeepsPeerOnScript(role: Role, s: Side, peer: Side)
    requires OnScript(role, peer, s) && peer.flight != []
    ensures OnScript(role, peer.(flight := peer.flight[1..]), Take(s, peer))
  {
  }

  lemma ActStaysClean(role: Role, s: Side, peer: Side, step: EndStep)
    requires SideInv(s, peer) && BothOnScript(role, s, peer)
    requires EndEnabled(s.end, step) && CleanStep(Act(0, step))
    ensures BothOnScript(role, ActOn(s, peer, step), peer)
  {
    match step {
      case Say(signal) =>
        SayStaysOnScript(role, s, peer, signal);
        SayKeepsPeerOnScript(role, s, peer, signal);
      case Hear =>
        HearStaysOnScript(role, s, peer);
        HearKeepsPeerOnScript(Flip(role), s, peer, step);
      case Conclude =>
        ConcludeStaysOnScript(role, s, peer);
        HearKeepsPeerOnScript(Flip(role), s, peer, step);
    }
  }

  lemma DeliverStaysClean(role: Role, s: Side, peer: Side)
    requires SideInv(s, peer) && BothOnScript(role, s, peer)
    requires peer.flight != [] && |peer.log| <= INBOX_CAP
    ensures BothOnScript(role, Take(s, peer), peer.(flight := peer.flight[1..]))
  {
    TakeStaysOnScript(role, s, peer);
    TakeKeepsPeerOnScript(Flip(role), s, peer);
  }

  lemma Turned(role: Role, s: Side, peer: Side)
    ensures BothOnScript(role, s, peer) <==> BothOnScript(Flip(role), peer, s)
  {
  }

  predicate OnScriptFrom(p: Pair, i: nat) {
    i < 2 && BothOnScript(RoleOf(i), p[i], p[1 - i])
  }

  lemma ActionStaysOnScript(p: Pair, s: PairStep)
    requires PairEnabled(p, s) && CleanStep(s) && s.Act? && SideInv(p[s.i], p[1 - s.i]) && OnScriptFrom(p, s.i)
    ensures OnScriptFrom(PairAfter(p, s), s.i)
  {
    ActStaysClean(RoleOf(s.i), p[s.i], p[1 - s.i], s.step);
    var p' := PairAfter(p, s);
    assert p'[s.i] == ActOn(p[s.i], p[1 - s.i], s.step) && p'[1 - s.i] == p[1 - s.i];
  }

  lemma DeliveryStaysOnScript(p: Pair, s: PairStep)
    requires PairEnabled(p, s) && s.Deliver? && SideInv(p[s.i], p[1 - s.i]) && OnScriptFrom(p, s.i)
    requires |p[1 - s.i].log| <= INBOX_CAP
    ensures OnScriptFrom(PairAfter(p, s), s.i)
  {
    DeliverStaysClean(RoleOf(s.i), p[s.i], p[1 - s.i]);
    var p' := PairAfter(p, s);
    assert p'[s.i] == Take(p[s.i], p[1 - s.i]);
    assert p'[1 - s.i] == p[1 - s.i].(flight := p[1 - s.i].flight[1..]);
  }

  lemma BothOrders(p: Pair)
    ensures OnScriptFrom(p, 0) <==> OnScriptFrom(p, 1)
  {
    Turned(Offerer, p[0], p[1]);
  }

  lemma StepKeepsBoth(p: Pair, s: PairStep)
    requires PairInv(p) && OnScriptFrom(p, 0) && PairEnabled(p, s) && CleanStep(s) && WithinCap(p)
    ensures OnScriptFrom(PairAfter(p, s), 0)
  {
    BothOrders(p);
    if s.Act? {
      ActionStaysOnScript(p, s);
    } else {
      DeliveryStaysOnScript(p, s);
    }
    BothOrders(PairAfter(p, s));
  }

  lemma StepStaysClean(p: Pair, s: PairStep)
    requires Clean(p) && PairEnabled(p, s) && CleanStep(s) && WithinCap(p)
    ensures Clean(PairAfter(p, s))
  {
    StepKeepsPair(p, s);
    StepKeepsBoth(p, s);
  }

  /** Everything `peer` published is accounted for: heard, unread, or on its way, in that order. */
  predicate NothingLost(s: Side, peer: Side) {
    if s.end.Busy? then
      && !s.lost
      && Heard(s.end.got) + Heard(s.end.inbox) + peer.flight == peer.log
    else if s.wins > 0 then
      peer.flight == []
    else
      peer.flight == peer.log
  }

  lemma UnreadIsAStretch(got: seq<Payload>, inbox: seq<Payload>, log: seq<Signal>, to: nat)
    requires Stretch(got + inbox, log, 0, to)
    ensures Heard(inbox) == log[|got|..to]
  {
    assert forall k :: 0 <= k < |inbox| ==> inbox[k] == (got + inbox)[|got| + k];
    HeardStretch(inbox, log, |got|);
  }

  lemma Reassemble(log: seq<Signal>, n: nat, m: nat)
    requires n <= m <= |log|
    ensures log[0..n] + log[n..m] + log[m..] == log
  {
  }

  lemma NothingLostHere(role: Role, s: Side, peer: Side)
    requires SideInv(s, peer) && OnScript(role, s, peer)
    ensures NothingLost(s, peer)
  {
    if s.end.Busy? {
      HeardAStretch(s, peer);
      UnreadIsAStretch(s.end.got, s.end.inbox, peer.log, Arrived(peer));
      Reassemble(peer.log, |s.end.got|, Arrived(peer));
    }
  }

  /** What the undisturbed dance guarantees a side. */
  predicate Faultless(role: Role, s: Side, peer: Side) {
    && NothingLost(s, peer)
    && Script(role, s.log)
    && s.wins <= 1
    && (s.wins == 1 ==> Complete(s.log) && Complete(peer.log) && peer.flight == [])
  }

  lemma CleanIsFaultless(p: Pair)
    requires Clean(p)
    ensures Faultless(Offerer, p[0], p[1]) && Faultless(Answerer, p[1], p[0])
  {
    NothingLostHere(Offerer, p[0], p[1]);
    NothingLostHere(Answerer, p[1], p[0]);
  }

  // --- it can always be finished ------------------------------------------------------------------

  /** The signals a side must still publish. */
  function ToSay(log: seq<Signal>): nat {
    |Rest(Offerer, log)|
  }

  function Effort(s: Side): nat {
    3 * ToSay(s.log) + 2 * |s.flight| + (if s.end.Busy? then |s.end.inbox| else 0) + (if s.wins > 0 then 0 else 1)
  }

  function PairEffort(p: Pair): nat {
    Effort(p[0]) + Effort(p[1])
  }

  /** There is room within the cap for what must still be published. */
  predicate Roomy(p: Pair) {
    |p[0].log| + ToSay(p[0].log) <= INBOX_CAP && |p[1].log| + ToSay(p[1].log) <= INBOX_CAP
  }

  /** A side with more to say can say it; an answerer once it has heard the offer. */
  lemma CanSay(role: Role, s: Side, peer: Side)
    requires SideInv(s, peer) && OnScript(role, s, peer) && s.end.Busy? && ToSay(s.log) > 0
    requires role.Answerer? && s.log == [] ==> s.end.got != [] && Script(Offerer, peer.log)
    ensures EndEnabled(s.end, Say(Rest(role, s.log)[0]))
    ensures ToSay(s.log + [Rest(role, s.log)[0]]) == ToSay(s.log) - 1
  {
    var rest := Rest(role, s.log);
    if role.Answerer? {
      RestIsAsLong(Answerer, s.log);
      RestIsAsLong(Answerer, s.log + [rest[0]]);
      if s.log == [] {
        AnswererHeardOffer(s, peer);
      }
    }
    RestMayFollow(role, s.log, s.end.got);
  }

  lemma AnswererHeardOffer(s: Side, peer: Side)
    requires LogInv(peer) && StretchInv(s, peer) && s.end.Busy? && !s.lost && s.from == 0
    requires |s.end.got| == 1 && Script(Offerer, peer.log)
    ensures |Heard(s.end.got)| == 1 && Heard(s.end.got)[0].Offer?
  {
    HeardAStretch(s, peer);
    assert InPlace(Offerer, peer.log, 0);
  }

  /** A side that said everything, or an answerer to begin with, can hear what has arrived. */
  lemma CanHear(role: Role, s: Side, peer: Side)
    requires SideInv(s, peer) && OnScript(role, s, peer) && Script(Flip(role), peer.log)
    requires s.end.Busy? && s.end.inbox != []
    requires Complete(s.log) || (role.Answerer? && s.log == [] && s.end.got == [])
    ensures EndEnabled(s.end, Hear)
  {
    HeardAStretch(s, peer);
    var read := Heard(s.end.got);
    forall k | 0 <= k < |read| ensures !read[k].Done? && (k > 0 || role.Offerer? ==> !read[k].Offer?) {
      assert InPlace(Flip(role), peer.log, k);
      if read[k].Done? {
        DoneIsLast(Flip(role), peer.log, k);
        assert false;
      }
    }
  }

  /** A side that said everything and heard the peer's whole script can conclude. */
  lemma CanConclude(role: Role, s: Side, peer: Side)
    requires SideInv(s, peer) && OnScript(role, s, peer) && Script(Flip(role), peer.log)
    requires s.end.Busy? && Complete(s.log) && Complete(peer.log) && s.end.inbox == [] && peer.flight == []
    ensures EndEnabled(s.end, Conclude)
  {
    HeardAStretch(s, peer);
    var read := Heard(s.end.got);
    assert read == peer.log;
    forall k | 0 <= k < |read| ensures k > 0 || role.Offerer? ==> !read[k].Offer? {
      assert InPlace(Flip(role), peer.log, k);
    }
    assert InPlace(Flip(role), peer.log, |read| - 1);
  }

  /** With nothing on its way to it, a session has a move that brings the end nearer. */
  lemma OneMoves(role: Role, s: Side, peer: Side) returns (step: EndStep)
    requires SideInv(s, peer) && BothOnScript(role, s, peer) && s.end.Busy?
    requires (ToSay(s.log) > 0 && role.Offerer?) || (Complete(peer.log) && peer.flight == [])
    ensures EndEnabled(s.end, step) && CleanStep(Act(0, step))
    ensures SideNearer(s, ActOn(s, peer, step))
  {
    if role.Answerer? && s.log == [] && s.end.got == [] {
      assert |s.end.got + s.end.inbox| == |peer.log|;
      CanHear(role, s, peer);
      step := Hear;
    } else if ToSay(s.log) > 0 {
      CanSay(role, s, peer);
      step := Say(Rest(role, s.log)[0]);
    } else if s.end.inbox != [] {
      CanHear(role, s, peer);
      step := Hear;
    } else {
      CanConclude(role, s, peer);
      step := Conclude;
    }
  }

  lemma DeliverNears(s: Side, peer: Side)
    requires peer.flight != []
    ensures Effort(Take(s, peer)) + Effort(peer.(flight := peer.flight[1..])) < Effort(s) + Effort(peer)
  {
  }

  predicate SideNearer(s: Side, s': Side) {
    Effort(s') < Effort(s) && |s'.log| + ToSay(s'.log) <= |s.log| + ToSay(s.log)
  }

  lemma ActionNears(p: Pair, i: nat, step: EndStep)
    requires i < 2 && PairEnabled(p, Act(i, step)) && SideNearer(p[i], ActOn(p[i], p[1 - i], step))
    ensures Nearer(p, PairAfter(p, Act(i, step)))
  {
  }

  lemma DeliveryNears(p: Pair, i: nat)
    requires i < 2 && PairEnabled(p, Deliver(i))
    ensures Nearer(p, PairAfter(p, Deliver(i)))
  {
    DeliverNears(p[i], p[1 - i]);
    assert Take(p[i], p[1 - i]).log == p[i].log;
  }

  /** The end is nearer, and room within the cap is left if it was. */
  predicate Nearer(p: Pair, p': Pair) {
    PairEffort(p') < PairEffort(p) && (Roomy(p) ==> Roomy(p'))
  }

  /** The offerer moves while it has something to say, and again when everything has reached it. */
  predicate OfferersTurn(p: Pair) {
    ToSay(p[0].log) > 0 || (p[1].wins == 1 && p[1].flight == [])
  }

  lemma OffererMoves(s: Side, peer: Side) returns (step: EndStep)
    requires SideInv(s, peer) && BothOnScript(Offerer, s, peer) && (s.wins != 1 || peer.wins != 1)
    requires ToSay(s.log) > 0 || (peer.wins == 1 && peer.flight == [])
    ensures EndEnabled(s.end, step) && CleanStep(Act(0, step)) && SideNearer(s, ActOn(s, peer, step))
  {
    assert s.end.Busy?;
    step := OneMoves(Offerer, s, peer);
  }

  lemma AnswererMoves(s: Side, peer: Side) returns (step: EndStep)
    requires SideInv(s, peer) && BothOnScript(Answerer, s, peer) && s.wins != 1
    requires ToSay(peer.log) == 0 && peer.flight == []
    ensures EndEnabled(s.end, step) && CleanStep(Act(0, step)) && SideNearer(s, ActOn(s, peer, step))
  {
    assert Complete(peer.log) && s.end.Busy?;
    step := OneMoves(Answerer, s, peer);
  }

  lemma NextMove(p: Pair) returns (s: PairStep)
    requires Clean(p) && !(p[0].wins == 1 && p[1].wins == 1)
    ensures PairEnabled(p, s) && CleanStep(s) && Nearer(p, PairAfter(p, s))
  {
    if OfferersTurn(p) {
      var step := OffererMoves(p[0], p[1]);
      s := Act(0, step);
      ActionNears(p, 0, step);
    } else if p[0].flight != [] {
      s := Deliver(1);
      DeliveryNears(p, 1);
    } else if p[1].wins == 1 {
      s := Deliver(0);
      DeliveryNears(p, 0);
    } else {
      Turned(Offerer, p[0], p[1]);
      var step := AnswererMoves(p[1], p[0]);
      s := Act(1, step);
      ActionNears(p, 1, step);
    }
  }
}
