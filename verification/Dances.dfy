/** What the two-party dance guarantees: whole scripts, and what glare does to it. */
module Dances {
  import opened Types
  import opened Signals
  import opened Endpoint
  import opened TwoParty

  ghost predicate ReachablePair(p: Pair) {
    exists steps :: PairRun(Start, steps) && PairEnd(Start, steps) == p
  }

  lemma ReachableKeepsPair(p: Pair)
    requires ReachablePair(p)
    ensures PairInv(p)
  {
    var steps :| PairRun(Start, steps) && PairEnd(Start, steps) == p;
    RunKeepsPair(Start, steps);
  }

  lemma {:induction false} PairRunAppends(p: Pair, steps: seq<PairStep>, s: PairStep)
    requires PairRun(p, steps) && PairEnabled(PairEnd(p, steps), s)
    ensures PairRun(p, steps + [s]) && PairEnd(p, steps + [s]) == PairAfter(PairEnd(p, steps), s)
    decreases |steps|
  {
    if steps == [] {
      assert [s][1..] == [] && steps + [s] == [s];
    } else {
      assert (steps + [s])[1..] == steps[1..] + [s];
      PairRunAppends(PairAfter(p, steps[0]), steps[1..], s);
    }
  }

  // --- whole scripts --------------------------------------------------------------------------

  function Flip(role: Role): Role {
    if role.Offerer? then Answerer else Offerer
  }

  predicate Opens(role: Role, signal: Signal) {
    if role.Offerer? then signal.Offer? else signal.Answer?
  }

  /** The signals begin with the opening of `role` and contain no other opening. */
  predicate OneOpening(role: Role, signals: seq<Signal>) {
    && signals != [] && Opens(role, signals[0])
    && forall k :: 0 < k < |signals| ==> !Opening(signals[k])
  }

  lemma {:induction false} HeardStretch(got: seq<Payload>, log: seq<Signal>, from: nat)
    requires from + |got| <= |log| && forall k :: 0 <= k < |got| ==> got[k] == Some(log[from + k])
    ensures Heard(got) == log[from..from + |got|]
  {
    if got != [] {
      var front := got[..|got| - 1];
      HeardStretch(front, log, from);
      assert log[from..from + |got|] == log[from..from + |front|] + [log[from + |front|]];
    }
  }

  /** A stretch of a log with one opening, up to a `Done`, is one session's complete script. */
  lemma StretchIsScript(role: Role, log: seq<Signal>, from: nat, to: nat)
    requires Chained(log) && from < to <= |log| && log[to - 1] == Done
    ensures Script(role, log[from..to]) <==> OneOpening(role, log[from..to])
  {
    var read := log[from..to];
    if OneOpening(role, read) {
      forall k | 0 <= k < |read| ensures InPlace(role, read, k) {
        assert Linked(log, from + k);
        if k > 0 {
          assert !Opening(read[k]) && read[k - 1] == log[from + k - 1];
        }
      }
    }
    if Script(role, read) {
      forall k | 0 <= k < |read| ensures if k == 0 then Opens(role, read[k]) else !Opening(read[k]) {
        assert InPlace(role, read, k);
      }
    }
  }

  lemma HeardAStretch(s: Side, peer: Side)
    requires LogInv(peer) && StretchInv(s, peer) && s.end.Busy? && !s.lost
    ensures s.from + |s.end.got| <= |peer.log|
    ensures Heard(s.end.got) == peer.log[s.from..s.from + |s.end.got|]
  {
    var all := s.end.got + s.end.inbox;
    assert forall k :: 0 <= k < |s.end.got| ==> s.end.got[k] == all[k];
    HeardStretch(s.end.got, peer.log, s.from);
  }

  lemma ConcludedHeardDone(role: Role, sent: seq<Signal>, got: seq<Payload>)
    requires Concluded(role, sent, got)
    ensures Complete(Heard(got))
  {
  }

  /** `read` is where the session came into its peer's log, up to a `Done`. */
  predicate StretchToDone(s: Side, peer: Side, read: seq<Signal>) {
    Complete(read) && s.from + |read| <= |peer.log| && read == peer.log[s.from..s.from + |read|]
  }

  lemma SideRegisters(s: Side, peer: Side)
    requires LogInv(peer) && StretchInv(s, peer) && !s.lost && EndEnabled(s.end, Conclude)
    ensures StretchToDone(s, peer, Heard(s.end.got))
    ensures Script(Flip(s.end.role), Heard(s.end.got)) <==> OneOpening(Flip(s.end.role), Heard(s.end.got))
  {
    HeardAStretch(s, peer);
    ConcludedHeardDone(s.end.role, s.end.sent, s.end.got);
    StretchIsScript(Flip(s.end.role), peer.log, s.from, s.from + |s.end.got|);
  }

  /**
   * In every run, a session about to register that lost nothing has heard a contiguous stretch of
   * what its peer published, up to a `Done`. That stretch is the complete script of one session of
   * the peer's exactly when it begins with the opening owed and contains no other opening.
   */
  lemma RegistersOnWholeScriptIff(p: Pair, i: nat)
    requires ReachablePair(p) && i < 2 && PairEnabled(p, Act(i, Conclude)) && !p[i].lost
    ensures StretchToDone(p[i], p[1 - i], Heard(p[i].end.got))
    ensures var role, read := Flip(p[i].end.role), Heard(p[i].end.got);
            Script(role, read) <==> OneOpening(role, read)
  {
    ReachableKeepsPair(p);
    SideRegisters(p[i], p[1 - i]);
  }

  // --- what a session that lost signals heard ------------------------------------------------------

  /** `xs` are some of the signals of `log`, in order. */
  predicate Picked(xs: seq<Payload>, log: seq<Signal>)
    decreases |log|
  {
    || xs == []
    || (&& log != []
        && var rest := log[..|log| - 1];
           (xs[|xs| - 1] == Some(log[|log| - 1]) && Picked(xs[..|xs| - 1], rest)) || Picked(xs, rest))
  }

  lemma PickedOrLost(xs: seq<Payload>, log: seq<Signal>, x: Signal)
    requires Picked(xs, log)
    ensures Picked(xs + [Some(x)], log + [x]) && Picked(xs, log + [x])
  {
    assert (log + [x])[..|log|] == log && (xs + [Some(x)])[..|xs|] == xs;
  }

  lemma {:induction false} PickedPrefix(xs: seq<Payload>, ys: seq<Payload>, log: seq<Signal>)
    requires Picked(xs + ys, log)
    ensures Picked(xs, log)
    decreases |log|
  {
    if ys == [] {
      assert xs + ys == xs;
    } else if xs != [] {
      var rest := log[..|log| - 1];
      if Picked(xs + ys, rest) {
        PickedPrefix(xs, ys, rest);
      } else {
        assert (xs + ys)[..|xs + ys| - 1] == xs + ys[..|ys| - 1];
        PickedPrefix(xs, ys[..|ys| - 1], rest);
      }
    }
  }

  /** Lossy or not, a session was given some of what its peer published since it came in, in order. */
  predicate PickedInv(s: Side, peer: Side) {
    s.end.Busy? ==>
      && s.from <= Arrived(peer)
      && Picked(s.end.got + s.end.inbox, peer.log[s.from..Arrived(peer)])
  }

  lemma ActKeepsPicked(s: Side, peer: Side, step: EndStep)
    requires PickedInv(s, peer) && LogInv(peer) && !step.File? && EndEnabled(s.end, step)
    ensures PickedInv(ActOn(s, peer, step), peer)
  {
    if step.Hear? {
      var e' := EndAfter(s.end, Hear);
      assert e'.got + e'.inbox == s.end.got + s.end.inbox;
    }
  }

  lemma ActKeepsPeerPicked(s: Side, peer: Side, step: EndStep)
    requires PickedInv(peer, s) && LogInv(s) && !step.File? && EndEnabled(s.end, step)
    ensures PickedInv(peer, ActOn(s, peer, step))
  {
    if step.Say? && peer.end.Busy? {
      assert (s.log + [step.signal])[peer.from..Arrived(s)] == s.log[peer.from..Arrived(s)];
    }
  }

  lemma TakeKeepsPicked(s: Side, peer: Side)
    requires PickedInv(s, peer) && LogInv(peer) && peer.flight != []
    ensures PickedInv(Take(s, peer), peer.(flight := peer.flight[1..]))
  {
    var n := Arrived(peer);
    assert peer.log[n] == peer.flight[0];
    if s.end.Idle? {
      FirstIsPicked(peer.log, n);
    } else {
      FilingPicks(s.end.got, s.end.inbox, peer.log, s.from, n);
    }
    TakenFacts(s, peer);
  }

  /** What a delivery leaves in the taker's hands. */
  lemma TakenFacts(s: Side, peer: Side)
    requires peer.flight != []
    ensures var e, e' := s.end, Take(s, peer).end; var x := Some(peer.flight[0]);
            && e'.Busy?
            && (e.Idle? ==> e'.got + e'.inbox == [x] && (0 <= Arrived(peer) ==> Take(s, peer).from == Arrived(peer)))
            && (e.Busy? ==> Take(s, peer).from == s.from && e'.got == e.got
                            && (e'.inbox == e.inbox || e'.inbox == e.inbox + [x]))
  {
  }

  lemma FirstIsPicked(log: seq<Signal>, n: nat)
    requires n < |log|
    ensures Picked([Some(log[n])], log[n..n + 1])
  {
    assert log[n..n + 1] == [] + [log[n]] && [Some(log[n])] == [] + [Some(log[n])];
    PickedOrLost([], [], log[n]);
  }

  /** The next signal of the log is filed or lost. */
  lemma FilingPicks(got: seq<Payload>, inbox: seq<Payload>, log: seq<Signal>, from: nat, n: nat)
    requires from <= n < |log| && Picked(got + inbox, log[from..n])
    ensures Picked(got + (inbox + [Some(log[n])]), log[from..n + 1]) && Picked(got + inbox, log[from..n + 1])
  {
    PickedOrLost(got + inbox, log[from..n], log[n]);
    assert log[from..n] + [log[n]] == log[from..n + 1];
    assert got + inbox + [Some(log[n])] == got + (inbox + [Some(log[n])]);
  }

  lemma TakeKeepsPeerPicked(s: Side, peer: Side)
    requires PickedInv(peer, s) && peer.flight != []
    ensures PickedInv(peer.(flight := peer.flight[1..]), Take(s, peer))
  {
    assert Take(s, peer).log == s.log && Arrived(Take(s, peer)) == Arrived(s);
  }

  predicate BothPicked(s: Side, peer: Side) {
    LogInv(s) && LogInv(peer) && PickedInv(s, peer) && PickedInv(peer, s)
  }

  lemma StepKeepsPicked(p: Pair, s: PairStep)
    requires s.i < 2 && BothPicked(p[s.i], p[1 - s.i]) && PairEnabled(p, s)
    ensures var p' := PairAfter(p, s); PickedInv(p'[s.i], p'[1 - s.i]) && PickedInv(p'[1 - s.i], p'[s.i])
  {
    var me, peer := p[s.i], p[1 - s.i];
    if s.Act? {
      ActKeepsPicked(me, peer, s.step);
      ActKeepsPeerPicked(me, peer, s.step);
    } else {
      TakeKeepsPicked(me, peer);
      TakeKeepsPeerPicked(me, peer);
    }
  }

  lemma {:induction false} RunKeepsPicked(p: Pair, steps: seq<PairStep>)
    requires PairInv(p) && PickedInv(p[0], p[1]) && PickedInv(p[1], p[0]) && PairRun(p, steps)
    ensures var q := PairEnd(p, steps); PickedInv(q[0], q[1]) && PickedInv(q[1], q[0])
    decreases |steps|
  {
    if steps != [] {
      StepKeepsPicked(p, steps[0]);
      StepKeepsPair(p, steps[0]);
      RunKeepsPicked(PairAfter(p, steps[0]), steps[1..]);
    }
  }

  /**
   * In every run, a session about to register, whatever it lost, has heard some of what its peer
   * published since it came in, in order, and a `Done` last.
   */
  lemma RegistersOnPickedSignals(p: Pair, i: nat)
    requires ReachablePair(p) && i < 2 && PairEnabled(p, Act(i, Conclude))
    ensures p[i].from <= Arrived(p[1 - i]) <= |p[1 - i].log|
    ensures Picked(p[i].end.got, p[1 - i].log[p[i].from..Arrived(p[1 - i])])
    ensures Complete(Heard(p[i].end.got))
  {
    var steps :| PairRun(Start, steps) && PairEnd(Start, steps) == p;
    RunKeepsPicked(Start, steps);
    var s, peer := p[i], p[1 - i];
    PickedPrefix(s.end.got, s.end.inbox, peer.log[s.from..Arrived(peer)]);
    ConcludedHeardDone(s.end.role, s.end.sent, s.end.got);
  }

  /** An answerer registers only after an offer, no second offer, and a `Done` at the end. */
  lemma AnswererRegistersAfterOfferAndDone(p: Pair, i: nat)
    requires ReachablePair(p) && i < 2 && PairEnabled(p, Act(i, Conclude)) && p[i].end.role.Answerer?
    ensures var read := Heard(p[i].end.got);
            && |read| > 1 && read[0].Offer? && read[|read| - 1] == Done
            && forall k :: 0 < k < |read| ==> !read[k].Offer?
  {
    ReachableKeepsPair(p);
    assert SideInv(p[i], p[1 - i]);
    AnswererConcludes(p[i].end.sent, p[i].end.got);
  }

  lemma AnswererConcludes(sent: seq<Signal>, got: seq<Payload>)
    requires Concluded(Answerer, sent, got) && Heard(got) != [] && Heard(got)[0].Offer?
    ensures var read := Heard(got);
            |read| > 1 && read[|read| - 1] == Done && forall k :: 0 < k < |read| ==> !read[k].Offer?
  {
    var read := Heard(got);
    assert Consumed(Answerer, got) == read[1..];
    forall k | 0 < k < |read| ensures !read[k].Offer? {
      assert read[k] == read[1..][k - 1];
    }
  }

  /** What a session still has to publish, with no candidates left. */
  function Rest(role: Role, sent: seq<Signal>): seq<Signal> {
    if sent == [] then [if role.Offerer? then Offer([]) else Answer([]), EndOfCandidates, Done]
    else match sent[|sent| - 1]
         case Done => []
         case EndOfCandidates => [Done]
         case _ => [EndOfCandidates, Done]
  }

  /** What a session still has to publish comes in the order the code publishes. */
  lemma RestMayFollow(role: Role, sent: seq<Signal>, got: seq<Payload>)
    requires Rest(role, sent) != []
    requires role.Answerer? && sent == [] ==> |Heard(got)| == 1 && Heard(got)[0].Offer?
    ensures var next := Rest(role, sent)[0];
            MayPublish(role, sent, got, next) && Rest(role, sent + [next]) == Rest(role, sent)[1..]
  {
  }

  lemma RestIsAsLong(role: Role, sent: seq<Signal>)
    ensures |Rest(role, sent)| == |Rest(Flip(role), sent)|
  {
  }

  // --- exhibiting runs --------------------------------------------------------------------------

  /**
   * A session the code ends: an offerer that heard an offer, or an answerer whose first signal was no
   * offer or that heard a second one.
   */
  predicate ForcedOut(e: End) {
    && e.Busy?
    && match e.role
       case Offerer => exists k :: 0 <= k < |Heard(e.got)| && Heard(e.got)[k].Offer?
       case Answerer =>
         && Heard(e.got) != []
         && (!Heard(e.got)[0].Offer? || exists k :: 0 < k < |Heard(e.got)| && Heard(e.got)[k].Offer?)
  }

  /** What a run may contain: any step, any but a new dial, or of the exits only those the code forces. */
  datatype Rule = Anything | NoDial | OnlyForced

  predicate Permits(rule: Rule, p: Pair, s: PairStep)
    requires PairEnabled(p, s)
  {
    s.Act? ==>
      && (s.step.Claim? ==> rule.Anything?)
      && (s.step.GiveUp? && rule.OnlyForced? ==> ForcedOut(p[s.i].end))
  }

  /** A set of states no permitted step leads out of. */
  ghost predicate ClosedUnder(R: iset<Pair>, rule: Rule) {
    forall p: Pair, s: PairStep :: p in R && PairEnabled(p, s) && Permits(rule, p, s) ==> PairAfter(p, s) in R
  }

  predicate RunUnder(rule: Rule, p: Pair, steps: seq<PairStep>)
    requires PairRun(p, steps)
    decreases |steps|
  {
    steps == [] || (Permits(rule, p, steps[0]) && RunUnder(rule, PairAfter(p, steps[0]), steps[1..]))
  }

  ghost predicate LeadsTo(rule: Rule, p: Pair, q: Pair) {
    exists steps :: PairRun(p, steps) && RunUnder(rule, p, steps) && PairEnd(p, steps) == q
  }

  lemma {:induction false} RunUnderAppends(rule: Rule, p: Pair, steps: seq<PairStep>, s: PairStep)
    requires PairRun(p, steps) && RunUnder(rule, p, steps)
    requires PairEnabled(PairEnd(p, steps), s) && Permits(rule, PairEnd(p, steps), s)
    ensures PairRun(p, steps + [s]) && RunUnder(rule, p, steps + [s])
    decreases |steps|
  {
    PairRunAppends(p, steps, s);
    if steps == [] {
      assert [s][1..] == [] && steps + [s] == [s];
    } else {
      assert (steps + [s])[1..] == steps[1..] + [s];
      RunUnderAppends(rule, PairAfter(p, steps[0]), steps[1..], s);
    }
  }

  /** The states permitted steps lead to. */
  lemma FromHere(rule: Rule, p: Pair) returns (R: iset<Pair>)
    ensures R == iset q: Pair | LeadsTo(rule, p, q)
    ensures ClosedUnder(R, rule) && p in R
  {
    R := iset q: Pair | LeadsTo(rule, p, q);
    forall q: Pair, s: PairStep | q in R && PairEnabled(q, s) && Permits(rule, q, s) ensures PairAfter(q, s) in R {
      LeadsFurther(rule, p, q, s);
    }
    assert PairRun(p, []) && PairEnd(p, []) == p;
  }

  lemma LeadsFurther(rule: Rule, p: Pair, q: Pair, s: PairStep)
    requires LeadsTo(rule, p, q) && PairEnabled(q, s) && Permits(rule, q, s)
    ensures LeadsTo(rule, p, PairAfter(q, s))
  {
    var steps :| PairRun(p, steps) && RunUnder(rule, p, steps) && PairEnd(p, steps) == q;
    PairRunAppends(p, steps, s);
    RunUnderAppends(rule, p, steps, s);
  }

  lemma LedToIsReachable(p: Pair)
    requires LeadsTo(Anything, Start, p)
    ensures ReachablePair(p)
  {
  }

  const AnOffer := Offer([])
  const Script3: seq<Signal> := [AnOffer, EndOfCandidates, Done]

  lemma OneSays(R: iset<Pair>, rule: Rule, p: Pair, i: nat, signal: Signal) returns (p': Pair)
    requires ClosedUnder(R, rule) && p in R && i < 2 && EndEnabled(p[i].end, Say(signal))
    ensures p' in R && p'[1 - i] == p[1 - i]
    ensures p'[i].end == EndAfter(p[i].end, Say(signal)) && p'[i].flight == p[i].flight + [signal]
    ensures p'[i].lost == p[i].lost && p'[i].wins == p[i].wins
  {
    assert PairEnabled(p, Act(i, Say(signal)));
    p' := PairAfter(p, Act(i, Say(signal)));
  }

  lemma OneTakes(R: iset<Pair>, rule: Rule, p: Pair, i: nat) returns (p': Pair)
    requires ClosedUnder(R, rule) && p in R && i < 2 && p[1 - i].flight != []
    ensures p' in R && p'[1 - i].end == p[1 - i].end && p'[1 - i].flight == p[1 - i].flight[1..]
    ensures p'[i].end == EndAfter(p[i].end, File(Some(p[1 - i].flight[0]))) && p'[i].wins == p[i].wins
    ensures p[i].end.Idle? || (|p[i].end.inbox| < INBOX_CAP && !p[i].lost) ==> !p'[i].lost
  {
    assert PairEnabled(p, Deliver(i));
    p' := PairAfter(p, Deliver(i));
  }

  lemma OneDoes(R: iset<Pair>, rule: Rule, p: Pair, i: nat, step: EndStep) returns (p': Pair)
    requires ClosedUnder(R, rule) && p in R && i < 2 && EndEnabled(p[i].end, step) && !step.File? && !step.Say?
    requires Permits(rule, p, Act(i, step))
    ensures p' in R && p'[1 - i] == p[1 - i]
    ensures p'[i].end == EndAfter(p[i].end, step) && p'[i].flight == p[i].flight
    ensures p'[i].lost == (!step.Claim? && p[i].lost)
    ensures p'[i].wins == p[i].wins + if step.Conclude? then 1 else 0
  {
    assert PairEnabled(p, Act(i, step));
    p' := PairAfter(p, Act(i, step));
  }

  /** A side claims its slot, and without a candidate to offer publishes its whole script. */
  lemma OffererSpeaks(R: iset<Pair>, p: Pair, i: nat) returns (p': Pair)
    requires ClosedUnder(R, Anything) && p in R && i < 2 && p[i].end.Idle?
    ensures p' in R && p'[1 - i] == p[1 - i]
    ensures p'[i].end == Busy(Offerer, Script3, [], []) && p'[i].flight == p[i].flight + Script3 && !p'[i].lost
  {
    var p0 := OneDoes(R, Anything, p, i, Claim);
    var p1 := OneSays(R, Anything, p0, i, AnOffer);
    assert p1[i].end.sent == [AnOffer];
    var p2 := OneSays(R, Anything, p1, i, EndOfCandidates);
    assert p2[i].end.sent == [AnOffer, EndOfCandidates];
    p' := OneSays(R, Anything, p2, i, Done);
  }

  /** An answerer gives up after the offer, its side dials back, and the rest of the script arrives. */
  lemma RestOfScriptArrives(R: iset<Pair>) returns (p: Pair)
    requires ClosedUnder(R, Anything) && Start in R
    ensures p in R && p[1].end == Busy(Offerer, Script3, [], [Some(EndOfCandidates), Some(Done)]) && !p[1].lost
  {
    var p1 := OffererSpeaks(R, Start, 0);
    assert p1[0].flight == Script3;
    var p2 := OneTakes(R, Anything, p1, 1);
    var p3 := OneDoes(R, Anything, p2, 1, GiveUp);
    var p4 := OffererSpeaks(R, p3, 1);
    assert p4[0].flight == [EndOfCandidates, Done];
    var p5 := OneTakes(R, Anything, p4, 1);
    assert p5[0].flight == [Done];
    p := OneTakes(R, Anything, p5, 1);
  }

  lemma TailConcludes()
    ensures MayRead(Offerer, Script3, []) && MayRead(Offerer, Script3, [Some(EndOfCandidates)])
    ensures Heard([Some(EndOfCandidates), Some(Done)]) == [EndOfCandidates, Done]
    ensures Concluded(Offerer, Script3, [Some(EndOfCandidates), Some(Done)])
  {
    var one: seq<Payload> := [Some(EndOfCandidates)];
    HeardAppends([], Some(EndOfCandidates));
    assert one == [] + [Some(EndOfCandidates)] && Heard([]) == [];
    HeardAppends(one, Some(Done));
    assert one + [Some(Done)] == [Some(EndOfCandidates), Some(Done)];
  }

  lemma TailIsRead(R: iset<Pair>) returns (p: Pair)
    requires ClosedUnder(R, Anything) && Start in R
    ensures p in R && PairEnabled(p, Act(1, Conclude)) && p[1].end.role.Offerer? && !p[1].lost
    ensures Heard(p[1].end.got) == [EndOfCandidates, Done]
  {
    TailConcludes();
    var p1 := RestOfScriptArrives(R);
    var p2 := OneDoes(R, Anything, p1, 1, Hear);
    assert p2[1].end == Busy(Offerer, Script3, [Some(EndOfCandidates)], [Some(Done)]);
    p := OneDoes(R, Anything, p2, 1, Hear);
    assert p[1].end.got == [Some(EndOfCandidates), Some(Done)];
  }

  /** A session can conclude on a stale tail: here an offerer that never heard an answer. */
  lemma StaleTailMisleads() returns (p: Pair)
    ensures ReachablePair(p) && PairEnabled(p, Act(1, Conclude)) && p[1].end.role.Offerer? && !p[1].lost
    ensures !Script(Answerer, Heard(p[1].end.got))
  {
    var R := FromHere(Anything, Start);
    p := TailIsRead(R);
    LedToIsReachable(p);
    assert !InPlace(Answerer, Heard(p[1].end.got), 0);
  }
}
