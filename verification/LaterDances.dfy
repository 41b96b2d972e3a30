/**
 * Any undisturbed dance, not only the first: what two sides did before they were last at rest is
 * history, and what they do since is a first dance.
 */
module LaterDances {
  import opened TwoParty
  import opened CleanDance

  /** Both slots are free and nothing is on its way. */
  predicate AtRest(a: Pair) {
    a[0].end.Idle? && a[1].end.Idle? && a[0].flight == [] && a[1].flight == []
  }

  // --- the part of the state that is new ----------------------------------------------------------

  /** No session of `s` has begun since it was `b`. */
  predicate Untouched(b: Side, s: Side) {
    s.end.Idle? && s.wins == b.wins
  }

  /** `s` is what became of `b`, its peer having published `n` signals until then. */
  predicate Became(b: Side, n: nat, s: Side) {
    && |b.log| + |s.flight| <= |s.log|
    && b.wins <= s.wins
    && (Untouched(b, s) || n <= s.from)
  }

  /** What is new about `s` since it was `b`. */
  function NewSince(b: Side, n: nat, s: Side): Side
    requires Became(b, n, s)
  {
    Side(s.end, s.flight, s.log[|b.log|..],
         if Untouched(b, s) then 0 else s.from - n,
         !Untouched(b, s) && s.lost,
         s.wins - b.wins)
  }

  predicate PairBecame(a: Pair, d: nat, p: Pair) {
    d < 2 && Became(a[d], |a[1 - d].log|, p[d]) && Became(a[1 - d], |a[d].log|, p[1 - d])
  }

  /** What is new since `a`, the side that dialed first. */
  function NewPart(a: Pair, d: nat, p: Pair): Pair
    requires PairBecame(a, d, p)
  {
    [NewSince(a[d], |a[1 - d].log|, p[d]), NewSince(a[1 - d], |a[d].log|, p[1 - d])]
  }

  /** A side's place when `d` comes first. */
  function Place(d: nat, i: nat): nat
    requires d < 2 && i < 2
  {
    if d == 0 then i else 1 - i
  }

  function Placed(d: nat, s: PairStep): PairStep
    requires d < 2 && s.i < 2
  {
    match s
    case Act(i, step) => Act(Place(d, i), step)
    case Deliver(i) => Deliver(Place(d, i))
  }

  // --- steps carry over -----------------------------------------------------------------------------

  lemma ActCarries(b: Side, n: nat, s: Side, peer: Side, peer': Side, step: EndStep)
    requires Became(b, n, s) && EndEnabled(s.end, step) && CleanStep(Act(0, step))
    ensures Became(b, n, ActOn(s, peer, step))
    ensures NewSince(b, n, ActOn(s, peer, step)) == ActOn(NewSince(b, n, s), peer', step)
  {
    if step.Say? {
      assert (s.log + [step.signal])[|b.log|..] == s.log[|b.log|..] + [step.signal];
    }
  }

  lemma TakeCarries(b: Side, s: Side, c: Side, m: nat, peer: Side)
    requires Became(b, |c.log|, s) && Became(c, m, peer) && peer.flight != []
    ensures Became(b, |c.log|, Take(s, peer))
    ensures NewSince(b, |c.log|, Take(s, peer)) == Take(NewSince(b, |c.log|, s), NewSince(c, m, peer))
  {
  }

  lemma FlightCarries(c: Side, m: nat, peer: Side)
    requires Became(c, m, peer) && peer.flight != []
    ensures var peer' := peer.(flight := peer.flight[1..]);
            Became(c, m, peer') && NewSince(c, m, peer') == NewSince(c, m, peer).(flight := peer.flight[1..])
  {
  }

  lemma NewPartAt(a: Pair, d: nat, p: Pair, i: nat)
    requires PairBecame(a, d, p) && i < 2
    ensures Became(a[i], |a[1 - i].log|, p[i]) && Became(a[1 - i], |a[i].log|, p[1 - i])
    ensures NewPart(a, d, p)[Place(d, i)] == NewSince(a[i], |a[1 - i].log|, p[i])
    ensures NewPart(a, d, p)[1 - Place(d, i)] == NewSince(a[1 - i], |a[i].log|, p[1 - i])
  {
  }

  /** The same steps can be taken, before and after leaving out the past. */
  lemma SameSteps(a: Pair, d: nat, p: Pair, s: PairStep)
    requires PairBecame(a, d, p) && s.i < 2
    ensures PairEnabled(p, s) <==> PairEnabled(NewPart(a, d, p), Placed(d, s))
  {
    NewPartAt(a, d, p, s.i);
  }

  lemma SamePair(q: Pair, r: Pair, j: nat)
    requires j < 2 && q[j] == r[j] && q[1 - j] == r[1 - j]
    ensures q == r
  {
  }

  lemma ActionCarries(a: Pair, d: nat, p: Pair, i: nat, step: EndStep)
    requires PairBecame(a, d, p) && i < 2 && PairEnabled(p, Act(i, step)) && CleanStep(Act(i, step))
    requires PairEnabled(NewPart(a, d, p), Act(Place(d, i), step))
    ensures PairBecame(a, d, PairAfter(p, Act(i, step)))
    ensures NewPart(a, d, PairAfter(p, Act(i, step))) == PairAfter(NewPart(a, d, p), Act(Place(d, i), step))
  {
    var j, q, p' := Place(d, i), NewPart(a, d, p), PairAfter(p, Act(i, step));
    NewPartAt(a, d, p, i);
    ActCarries(a[i], |a[1 - i].log|, p[i], p[1 - i], q[1 - j], step);
    assert p'[i] == ActOn(p[i], p[1 - i], step) && p'[1 - i] == p[1 - i];
    NewPartAt(a, d, p', i);
    SamePair(NewPart(a, d, p'), PairAfter(q, Act(j, step)), j);
  }

  lemma AfterDelivery(p: Pair, i: nat)
    requires i < 2 && PairEnabled(p, Deliver(i))
    ensures var p' := PairAfter(p, Deliver(i));
            p'[i] == Take(p[i], p[1 - i]) && p'[1 - i] == p[1 - i].(flight := p[1 - i].flight[1..])
  {
  }

  /** A delivery carries over, side by side. */
  lemma SidesCarry(a: Pair, p: Pair, p': Pair, i: nat)
    requires i < 2 && Became(a[i], |a[1 - i].log|, p[i]) && Became(a[1 - i], |a[i].log|, p[1 - i])
    requires p[1 - i].flight != []
    requires p'[i] == Take(p[i], p[1 - i]) && p'[1 - i] == p[1 - i].(flight := p[1 - i].flight[1..])
    ensures Became(a[i], |a[1 - i].log|, p'[i]) && Became(a[1 - i], |a[i].log|, p'[1 - i])
    ensures var s, peer := NewSince(a[i], |a[1 - i].log|, p[i]), NewSince(a[1 - i], |a[i].log|, p[1 - i]);
            && peer.flight == p[1 - i].flight
            && NewSince(a[i], |a[1 - i].log|, p'[i]) == Take(s, peer)
            && NewSince(a[1 - i], |a[i].log|, p'[1 - i]) == peer.(flight := peer.flight[1..])
  {
    TakeCarries(a[i], p[i], a[1 - i], |a[i].log|, p[1 - i]);
    FlightCarries(a[1 - i], |a[i].log|, p[1 - i]);
  }

  lemma DeliveryCarries(a: Pair, d: nat, p: Pair, i: nat)
    requires PairBecame(a, d, p) && i < 2 && PairEnabled(p, Deliver(i))
    requires PairEnabled(NewPart(a, d, p), Deliver(Place(d, i)))
    ensures PairBecame(a, d, PairAfter(p, Deliver(i)))
    ensures NewPart(a, d, PairAfter(p, Deliver(i))) == PairAfter(NewPart(a, d, p), Deliver(Place(d, i)))
  {
    var j, q, p' := Place(d, i), NewPart(a, d, p), PairAfter(p, Deliver(i));
    NewPartAt(a, d, p, i);
    AfterDelivery(p, i);
    SidesCarry(a, p, p', i);
    NewPartAt(a, d, p', i);
    AfterDelivery(q, j);
    SamePair(NewPart(a, d, p'), PairAfter(q, Deliver(j)), j);
  }

  lemma StepCarries(a: Pair, d: nat, p: Pair, s: PairStep)
    requires PairBecame(a, d, p) && PairEnabled(p, s) && CleanStep(s)
    ensures PairBecame(a, d, PairAfter(p, s)) && PairEnabled(NewPart(a, d, p), Placed(d, s))
    ensures NewPart(a, d, PairAfter(p, s)) == PairAfter(NewPart(a, d, p), Placed(d, s))
  {
    SameSteps(a, d, p, s);
    match s {
      case Act(i, step) => ActionCarries(a, d, p, i, step);
      case Deliver(i) => DeliveryCarries(a, d, p, i);
    }
  }

  // --- runs carry over ------------------------------------------------------------------------------

  /** An undisturbed run that stays, since `a`, within the cap. */
  predicate CleanSince(a: Pair, d: nat, p: Pair, steps: seq<PairStep>)
    requires PairRun(p, steps)
    decreases |steps|
  {
    && PairBecame(a, d, p) && WithinCap(NewPart(a, d, p))
    && (steps == [] || (CleanStep(steps[0]) && CleanSince(a, d, PairAfter(p, steps[0]), steps[1..])))
  }

  lemma {:induction false} RunStaysCleanSince(a: Pair, d: nat, p: Pair, steps: seq<PairStep>)
    requires PairRun(p, steps) && CleanSince(a, d, p, steps) && Clean(NewPart(a, d, p))
    ensures PairBecame(a, d, PairEnd(p, steps)) && Clean(NewPart(a, d, PairEnd(p, steps)))
    decreases |steps|
  {
    if steps != [] {
      StepCarries(a, d, p, steps[0]);
      StepStaysClean(NewPart(a, d, p), Placed(d, steps[0]));
      RunStaysCleanSince(a, d, PairAfter(p, steps[0]), steps[1..]);
    }
  }

  /** Dialing from rest begins a dance that is all new. */
  lemma DialingIsNew(a: Pair, d: nat)
    requires AtRest(a) && d < 2
    ensures PairEnabled(a, Act(d, Claim))
    ensures var p := PairAfter(a, Act(d, Claim)); PairBecame(a, d, p) && NewPart(a, d, p) == Dialed
  {
    assert a[d].log[|a[d].log|..] == [] && a[1 - d].log[|a[1 - d].log|..] == [];
  }

  /**
   * From any two sides at rest, one dials. In every undisturbed run within the cap no signal is lost,
   * each side publishes a prefix of its script, and a side that registered has published all of its
   * own and consumed all of the other's.
   */
  lemma CleanDanceLosesNothing(a: Pair, d: nat, steps: seq<PairStep>, i: nat)
    requires AtRest(a) && d < 2 && i < 2
    requires var p := PairAfter(a, Act(d, Claim)); PairRun(p, steps) && CleanSince(a, d, p, steps)
    ensures var q := PairEnd(PairAfter(a, Act(d, Claim)), steps);
            PairBecame(a, d, q) && Faultless(RoleOf(i), NewPart(a, d, q)[i], NewPart(a, d, q)[1 - i])
  {
    var p := PairAfter(a, Act(d, Claim));
    DialingIsNew(a, d);
    RunStaysCleanSince(a, d, p, steps);
    CleanIsFaultless(NewPart(a, d, PairEnd(p, steps)));
  }

  lemma NextMoveCarries(a: Pair, d: nat, p: Pair) returns (s: PairStep)
    requires PairBecame(a, d, p) && Clean(NewPart(a, d, p)) && Roomy(NewPart(a, d, p))
    requires !(NewPart(a, d, p)[0].wins == 1 && NewPart(a, d, p)[1].wins == 1)
    ensures PairEnabled(p, s) && CleanStep(s) && PairBecame(a, d, PairAfter(p, s))
    ensures var q, q' := NewPart(a, d, p), NewPart(a, d, PairAfter(p, s));
            Clean(q') && Roomy(q') && PairEffort(q') < PairEffort(q)
  {
    var q := NewPart(a, d, p);
    var t := NextMove(q);
    s := Placed(d, t);
    assert Placed(d, s) == t;
    SameSteps(a, d, p, s);
    StepCarries(a, d, p, s);
    StepStaysClean(q, t);
  }

  lemma {:induction false} CanFinishFrom(a: Pair, d: nat, p: Pair) returns (steps: seq<PairStep>)
    requires PairBecame(a, d, p) && Clean(NewPart(a, d, p)) && Roomy(NewPart(a, d, p))
    ensures PairRun(p, steps) && CleanSince(a, d, p, steps) && |steps| <= PairEffort(NewPart(a, d, p))
    ensures PairEnd(p, steps)[0].wins == a[0].wins + 1 && PairEnd(p, steps)[1].wins == a[1].wins + 1
    decreases PairEffort(NewPart(a, d, p))
  {
    var q := NewPart(a, d, p);
    if q[0].wins == 1 && q[1].wins == 1 {
      return [];
    }
    var s := NextMoveCarries(a, d, p);
    var rest := CanFinishFrom(a, d, PairAfter(p, s));
    steps := [s] + rest;
    assert steps[1..] == rest;
  }

  /** From every state of such a run with room left within the cap, both sides can still register. */
  lemma CleanDanceCanFinish(a: Pair, d: nat, steps: seq<PairStep>) returns (more: seq<PairStep>)
    requires AtRest(a) && d < 2
    requires var p := PairAfter(a, Act(d, Claim)); PairRun(p, steps) && CleanSince(a, d, p, steps)
    requires var q := PairEnd(PairAfter(a, Act(d, Claim)), steps); PairBecame(a, d, q) ==> Roomy(NewPart(a, d, q))
    ensures var q := PairEnd(PairAfter(a, Act(d, Claim)), steps);
            && PairRun(q, more) && CleanSince(a, d, q, more)
            && PairEnd(q, more)[0].wins == a[0].wins + 1 && PairEnd(q, more)[1].wins == a[1].wins + 1
  {
    var p := PairAfter(a, Act(d, Claim));
    DialingIsNew(a, d);
    RunStaysCleanSince(a, d, p, steps);
    more := CanFinishFrom(a, d, PairEnd(p, steps));
  }
}
