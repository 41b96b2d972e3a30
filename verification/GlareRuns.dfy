/** The other half: with something stale among the signals still to come, a glare can end in a registration. */
module GlareRuns {
  import opened Types
  import opened Signals
  import opened Endpoint
  import opened TwoParty
  import opened Dances
  import opened Glare

  /** A session publishes the rest of its script. */
  lemma Finishes(R: iset<Pair>, rule: Rule, p: Pair, i: nat) returns (p': Pair)
    requires ClosedUnder(R, rule) && p in R && i < 2 && p[i].end.Busy?
    requires p[i].end.role.Answerer? && p[i].end.sent == [] ==>
               |Heard(p[i].end.got)| == 1 && Heard(p[i].end.got)[0].Offer?
    ensures p' in R && p'[1 - i] == p[1 - i]
    ensures p'[i].end.Busy? && p'[i].end == p[i].end.(sent := p'[i].end.sent) && Complete(p'[i].end.sent)
    ensures p'[i].flight == p[i].flight + Rest(p[i].end.role, p[i].end.sent) && p'[i].wins == p[i].wins
    decreases |Rest(p[i].end.role, p[i].end.sent)|
  {
    var rest := Rest(p[i].end.role, p[i].end.sent);
    if rest == [] {
      assert p[i].flight + rest == p[i].flight;
      return p;
    }
    RestMayFollow(p[i].end.role, p[i].end.sent, p[i].end.got);
    var p1 := OneSays(R, rule, p, i, rest[0]);
    p' := Finishes(R, rule, p1, i);
    assert p[i].flight + [rest[0]] + rest[1..] == p[i].flight + rest;
  }

  // --- reading to a `Done` ----------------------------------------------------------------------

  /** A session that has said everything and read nothing that ends its reading. */
  predicate Reading(e: End) {
    && e.Busy? && Complete(e.sent)
    && (e.role.Answerer? ==> Heard(e.got) != [])
    && forall g :: g in Consumed(e.role, e.got) ==> !Decides(g)
  }

  lemma HearMore(e: End)
    requires Reading(e) && e.inbox != [] && e.inbox[0].Some?
    ensures EndEnabled(e, Hear)
    ensures Consumed(e.role, EndAfter(e, Hear).got) == Consumed(e.role, e.got) + [e.inbox[0].value]
    ensures !Decides(e.inbox[0].value) ==> Reading(EndAfter(e, Hear))
    ensures e.inbox[0].value == Done ==> EndEnabled(EndAfter(e, Hear), Conclude)
  {
    HeardAppends(e.got, e.inbox[0]);
  }

  /** An inbox whose first decisive signal is the `Done` at its end. */
  predicate EndsInDone(inbox: seq<Payload>) {
    && inbox != [] && inbox[|inbox| - 1] == Some(Done)
    && forall k :: 0 <= k < |inbox| - 1 ==> inbox[k].Some? && !Decides(inbox[k].value)
  }

  lemma ReadsToDone(R: iset<Pair>, rule: Rule, p: Pair, i: nat) returns (p': Pair)
    requires ClosedUnder(R, rule) && p in R && i < 2 && Reading(p[i].end) && EndsInDone(p[i].end.inbox)
    ensures p' in R && p'[i].wins == p[i].wins + 1
    decreases |p[i].end.inbox|
  {
    HearMore(p[i].end);
    var p1 := OneDoes(R, rule, p, i, Hear);
    if |p[i].end.inbox| == 1 {
      p' := OneDoes(R, rule, p1, i, Conclude);
    } else {
      p' := ReadsToDone(R, rule, p1, i);
    }
  }

  /** Taking and reading signals one by one, up to the first decisive one, a `Done`. */
  lemma DeliversToDone(R: iset<Pair>, rule: Rule, p: Pair, i: nat) returns (p': Pair)
    requires ClosedUnder(R, rule) && p in R && i < 2 && Reading(p[i].end) && p[i].end.inbox == []
    requires var k := FirstDeciding(p[1 - i].flight); k < |p[1 - i].flight| && p[1 - i].flight[k] == Done
    ensures p' in R && p'[i].wins == p[i].wins + 1
    decreases |p[1 - i].flight|
  {
    var x := p[1 - i].flight[0];
    var p1 := OneTakes(R, rule, p, i);
    assert p1[i].end.inbox == [Some(x)];
    if x == Done {
      p' := ReadsToDone(R, rule, p1, i);
    } else {
      HearMore(p1[i].end);
      var p2 := OneDoes(R, rule, p1, i, Hear);
      assert p2[i].end.inbox == [];
      p' := DeliversToDone(R, rule, p2, i);
    }
  }

  // --- signals piling up --------------------------------------------------------------------------

  /** `n` signals arrive unread: the inbox keeps them in order up to its cap and loses the others. */
  lemma TakesUnread(R: iset<Pair>, rule: Rule, p: Pair, i: nat, n: nat) returns (p': Pair)
    requires ClosedUnder(R, rule) && p in R && i < 2 && p[i].end.Busy?
    requires n <= |p[1 - i].flight| && |p[i].end.inbox| <= INBOX_CAP
    ensures p' in R && p'[i].wins == p[i].wins && p'[1 - i].flight == p[1 - i].flight[n..]
    ensures p'[i].end.Busy? && p'[i].end == p[i].end.(inbox := p'[i].end.inbox)
    ensures Piled(p[i].end.inbox, p[1 - i].flight[..n], p'[i].end.inbox)
    decreases n
  {
    var flight, inbox := p[1 - i].flight, p[i].end.inbox;
    if n == 0 {
      assert flight[0..] == flight;
      return p;
    }
    var p1 := OneTakes(R, rule, p, i);
    p' := TakesUnread(R, rule, p1, i, n - 1);
    assert flight[1..][n - 1..] == flight[n..];
    PiledMore(inbox, flight[..n], p'[i].end.inbox);
    assert flight[..n][1..] == flight[1..][..n - 1];
  }

  /** `after` is `inbox` with as many of `signals` behind it as there is room for. */
  predicate Piled(inbox: seq<Payload>, signals: seq<Signal>, after: seq<Payload>) {
    && |after| == (if |inbox| + |signals| < INBOX_CAP then |inbox| + |signals| else INBOX_CAP)
    && |inbox| <= |after|
    && (forall k :: 0 <= k < |inbox| ==> after[k] == inbox[k])
    && (forall k :: |inbox| <= k < |after| ==> after[k] == Some(signals[k - |inbox|]))
  }

  lemma PiledMore(inbox: seq<Payload>, signals: seq<Signal>, after: seq<Payload>)
    requires |inbox| <= INBOX_CAP && signals != []
    requires Piled(if |inbox| < INBOX_CAP then inbox + [Some(signals[0])] else inbox, signals[1..], after)
    ensures Piled(inbox, signals, after)
  {
  }

  /** The first signals of `flight`, unread, with nothing decisive among them. */
  predicate Unread(inbox: seq<Payload>, flight: seq<Signal>) {
    |inbox| <= |flight| && forall k :: 0 <= k < |inbox| ==> inbox[k] == Some(flight[k])
  }

  lemma PiledIsUnread(flight: seq<Signal>, n: nat, inbox: seq<Payload>)
    requires n <= |flight| && Piled([], flight[..n], inbox)
    ensures Unread(inbox, flight)
  {
  }

  /** A full inbox with nothing decisive in it makes room for one more signal, a `Done`. */
  lemma DoneFollows(R: iset<Pair>, rule: Rule, p: Pair, i: nat, flight: seq<Signal>) returns (p': Pair)
    requires ClosedUnder(R, rule) && p in R && i < 2 && Reading(p[i].end) && p[1 - i].flight == [Done]
    requires |p[i].end.inbox| == INBOX_CAP <= FirstDeciding(flight) && Unread(p[i].end.inbox, flight)
    ensures p' in R && p'[i].wins == p[i].wins + 1
  {
    HearMore(p[i].end);
    var p1 := OneDoes(R, rule, p, i, Hear);
    var p2 := OneTakes(R, rule, p1, i);
    assert p2[i].end.inbox == p[i].end.inbox[1..] + [Some(Done)];
    p' := ReadsToDone(R, rule, p2, i);
  }

  /** An offer behind a full inbox is lost, and the `Done` after it is heard instead. */
  lemma OfferIsLost(R: iset<Pair>, rule: Rule, p: Pair, i: nat) returns (p': Pair)
    requires ClosedUnder(R, rule) && p in R && i < 2 && Reading(p[i].end) && p[i].end.inbox == []
    requires INBOX_CAP <= FirstDeciding(p[1 - i].flight) < |p[1 - i].flight|
    requires p[1 - i].flight[|p[1 - i].flight| - 1] == Done
    ensures p' in R && p'[i].wins == p[i].wins + 1
  {
    var flight := p[1 - i].flight;
    var p1 := TakesUnread(R, rule, p, i, |flight| - 1);
    assert p1[1 - i].flight == [Done];
    PiledIsUnread(flight, |flight| - 1, p1[i].end.inbox);
    p' := DoneFollows(R, rule, p1, i, flight);
  }

  // --- being forced out by a first offer, and answering the last ------------------------------------

  /** An offerer that reads on to an offer is forced out. */
  lemma ReadsToOffer(R: iset<Pair>, rule: Rule, p: Pair, i: nat, k: nat) returns (p': Pair)
    requires ClosedUnder(R, rule) && p in R && i < 2 && Reading(p[i].end) && p[i].end.role.Offerer?
    requires k < |p[i].end.inbox| && p[i].end.inbox[k].Some? && p[i].end.inbox[k].value.Offer?
    requires forall m :: 0 <= m < k ==> p[i].end.inbox[m].Some? && !Decides(p[i].end.inbox[m].value)
    ensures p' in R && p'[1 - i] == p[1 - i] && p'[i].wins == p[i].wins && ForcedOut(p'[i].end)
    decreases k
  {
    HearMore(p[i].end);
    var p1 := OneDoes(R, rule, p, i, Hear);
    if k == 0 {
      var read := Heard(p1[i].end.got);
      assert read[|read| - 1].Offer?;
      p' := p1;
    } else {
      p' := ReadsToOffer(R, rule, p1, i, k - 1);
    }
  }

  /** An idle side that takes an offer hears it first and answers it. */
  lemma AnswersOffer(R: iset<Pair>, rule: Rule, p: Pair, i: nat) returns (p': Pair)
    requires ClosedUnder(R, rule) && p in R && i < 2 && p[i].end.Idle?
    requires p[1 - i].flight != [] && p[1 - i].flight[0].Offer?
    ensures p' in R && Reading(p'[i].end) && p'[i].end.inbox == [] && p'[i].wins == p[i].wins
    ensures p'[1 - i].flight == p[1 - i].flight[1..]
  {
    var offer := Some(p[1 - i].flight[0]);
    HeardAppends([], offer);
    assert Heard([]) == [] && [] + [offer] == [offer];
    var p1 := OneTakes(R, rule, p, i);
    var p2 := OneDoes(R, rule, p1, i, Hear);
    assert p2[i].end.got == [offer] && p2[i].end.inbox == [];
    p' := Finishes(R, rule, p2, i);
  }

  /** The last offer among the signals, and the `Done` after it. */
  lemma {:induction false} LastOffer(signals: seq<Signal>) returns (m: nat)
    requires exists k :: 0 <= k < |signals| && signals[k].Offer?
    requires signals[|signals| - 1] == Done
    ensures m + 1 < |signals| && signals[m].Offer? && forall n :: m < n < |signals| ==> !signals[n].Offer?
    ensures var rest := signals[m + 1..]; FirstDeciding(rest) < |rest| && rest[FirstDeciding(rest)] == Done
  {
    var rest := signals[1..];
    if k :| 0 <= k < |rest| && rest[k].Offer? {
      var n := LastOffer(rest);
      m := n + 1;
      assert rest[n + 1..] == signals[m + 1..];
      assert forall j :: m < j < |signals| ==> signals[j] == rest[j - 1];
    } else {
      m := 0;
      assert rest[|rest| - 1] == Done;
      assert FirstDeciding(rest) < |rest|;
      assert forall j :: 0 < j < |signals| ==> signals[j] == rest[j - 1];
    }
  }

  /** An idle side whose peer's next signal is its last offer answers it and registers. */
  lemma LastOfferRegisters(R: iset<Pair>, rule: Rule, p: Pair, i: nat) returns (p': Pair)
    requires ClosedUnder(R, rule) && p in R && i < 2 && p[i].end.Idle?
    requires p[1 - i].flight != [] && p[1 - i].flight[0].Offer?
    requires var rest := p[1 - i].flight[1..]; FirstDeciding(rest) < |rest| && rest[FirstDeciding(rest)] == Done
    ensures p' in R && p'[i].wins == p[i].wins + 1
  {
    var p1 := AnswersOffer(R, rule, p, i);
    p' := DeliversToDone(R, rule, p1, i);
  }

  /** With two offers to come, the first forces the session out and the last one is answered. */
  lemma TwoOffersRegister(R: iset<Pair>, p: Pair, i: nat, m: nat) returns (p': Pair)
    requires ClosedUnder(R, OnlyForced) && p in R && i < 2
    requires Reading(p[i].end) && p[i].end.role.Offerer? && p[i].end.inbox == []
    requires var flight := p[1 - i].flight; var k := FirstDeciding(flight);
             k < INBOX_CAP && k < m < |flight| && flight[k].Offer? && flight[m].Offer?
    requires var rest := p[1 - i].flight[m + 1..]; FirstDeciding(rest) < |rest| && rest[FirstDeciding(rest)] == Done
    ensures p' in R && p'[i].wins == p[i].wins + 1
  {
    var flight := p[1 - i].flight;
    var k := FirstDeciding(flight);
    var p1 := TakesUnread(R, OnlyForced, p, i, m);
    PiledIsUnread(flight, m, p1[i].end.inbox);
    var p2 := ReadsToOffer(R, OnlyForced, p1, i, k);
    var p3 := OneDoes(R, OnlyForced, p2, i, GiveUp);
    assert p3[1 - i].flight == flight[m..] && flight[m..][1..] == flight[m + 1..];
    p' := LastOfferRegisters(R, OnlyForced, p3, i);
  }

  // --- the whole condition ------------------------------------------------------------------------

  lemma {:induction false} FirstDecidingExtends(signals: seq<Signal>, more: seq<Signal>)
    ensures FirstDeciding(signals + more)
            == if FirstDeciding(signals) < |signals| then FirstDeciding(signals)
               else |signals| + FirstDeciding(more)
  {
    if signals == [] {
      assert signals + more == more;
    } else {
      assert (signals + more)[1..] == signals[1..] + more;
      FirstDecidingExtends(signals[1..], more);
    }
  }

  lemma RestEndsInDone(peer: Side)
    requires LogInv(peer) && Offering(peer) && (peer.flight != [] || !Complete(peer.end.sent))
    ensures var all := peer.flight + Rest(Offerer, peer.end.sent); all != [] && all[|all| - 1] == Done
  {
    if Rest(Offerer, peer.end.sent) == [] {
      assert peer.flight[|peer.flight| - 1] == peer.log[|peer.log| - 1];
    }
  }

  lemma RestDecides(sent: seq<Signal>)
    ensures var rest := Rest(Offerer, sent); var k := FirstDeciding(rest);
            if sent == [] then k == 0 && rest[0].Offer?
            else if Complete(sent) then rest == []
            else k < |rest| && rest[k] == Done
  {
    assert [EndOfCandidates, Done][1..] == [Done];
  }

  /** A peer that is not clear ends, once it has said everything, in one of the two losing ways. */
  lemma NotClear(peer: Side)
    requires LogInv(peer) && Offering(peer) && !Clear(peer, INBOX_CAP)
    ensures var all := peer.flight + Rest(Offerer, peer.end.sent); var k := FirstDeciding(all);
            && k < |all| && all[|all| - 1] == Done
            && (all[k] == Done || (all[k].Offer? && INBOX_CAP <= k))
  {
    FirstDecidingExtends(peer.flight, Rest(Offerer, peer.end.sent));
    RestDecides(peer.end.sent);
    RestEndsInDone(peer);
  }

  lemma UnclearRegisters(R: iset<Pair>, rule: Rule, p: Pair, i: nat) returns (p': Pair)
    requires ClosedUnder(R, rule) && p in R && i < 2 && BothOffer(p)
    requires LogInv(p[1 - i]) && !Clear(p[1 - i], INBOX_CAP)
    ensures p' in R && p'[i].wins == p[i].wins + 1
  {
    assert OffersUnheard(p[i]) && OffersUnheard(p[1 - i]);
    NotClear(p[1 - i]);
    var p1 := Finishes(R, rule, p, 1 - i);
    var p2 := Finishes(R, rule, p1, i);
    assert Heard([]) == [];
    var flight := p2[1 - i].flight;
    if flight[FirstDeciding(flight)] == Done {
      p' := DeliversToDone(R, rule, p2, i);
    } else {
      p' := OfferIsLost(R, rule, p2, i);
    }
  }

  lemma {:induction false} OffersConcat(signals: seq<Signal>, more: seq<Signal>)
    ensures OffersIn(signals + more) == OffersIn(signals) + OffersIn(more)
  {
    if signals == [] {
      assert signals + more == more;
    } else {
      assert (signals + more)[1..] == signals[1..] + more;
      OffersConcat(signals[1..], more);
    }
  }

  /** Of two offers one comes after the first. */
  lemma {:induction false} AnotherOffer(signals: seq<Signal>, k: nat)
    requires OffersIn(signals) > 1 && k < |signals| && forall m :: 0 <= m < k ==> !signals[m].Offer?
    ensures exists m :: k < m < |signals| && signals[m].Offer?
  {
    var rest := signals[1..];
    if k == 0 {
      NoneIn(rest);
      var m :| 0 <= m < |rest| && rest[m].Offer?;
      assert signals[m + 1].Offer?;
    } else {
      AnotherOffer(rest, k - 1);
      var m :| k - 1 < m < |rest| && rest[m].Offer?;
      assert signals[m + 1].Offer?;
    }
  }

  /** What a clear peer with two offers to come has on its way once it has said everything. */
  lemma TwoOffersToCome(peer: Side) returns (m: nat)
    requires LogInv(peer) && Offering(peer) && Clear(peer, INBOX_CAP) && OffersToCome(peer) > 1
    ensures var all := peer.flight + Rest(Offerer, peer.end.sent); var k := FirstDeciding(all);
            && k < INBOX_CAP && k < m < |all| && all[k].Offer? && all[m].Offer?
            && var rest := all[m + 1..]; FirstDeciding(rest) < |rest| && rest[FirstDeciding(rest)] == Done
  {
    var all := peer.flight + Rest(Offerer, peer.end.sent);
    var k := FirstDeciding(all);
    FirstDecidingExtends(peer.flight, Rest(Offerer, peer.end.sent));
    OffersConcat(peer.flight, Rest(Offerer, peer.end.sent));
    assert FirstDeciding(peer.flight) < |peer.flight| by {
      NoneIn(peer.flight);
    }
    RestEndsInDone(peer);
    AnotherOffer(all, k);
    m := LastOffer(all);
  }

  lemma SecondOfferRegisters(R: iset<Pair>, p: Pair, i: nat) returns (p': Pair)
    requires ClosedUnder(R, OnlyForced) && p in R && i < 2 && BothOffer(p)
    requires LogInv(p[1 - i]) && Clear(p[1 - i], INBOX_CAP) && OffersToCome(p[1 - i]) > 1
    ensures p' in R && p'[i].wins == p[i].wins + 1
  {
    assert OffersUnheard(p[i]) && OffersUnheard(p[1 - i]);
    var m := TwoOffersToCome(p[1 - i]);
    var p1 := Finishes(R, OnlyForced, p, 1 - i);
    var p2 := Finishes(R, OnlyForced, p1, i);
    assert Heard([]) == [];
    p' := TwoOffersRegister(R, p2, i, m);
  }

  // --- giving up early ------------------------------------------------------------------------------

  /** An idle side loses `n` signals to answerers that give up. */
  lemma SpoilsSome(R: iset<Pair>, p: Pair, i: nat, n: nat) returns (p': Pair)
    requires ClosedUnder(R, NoDial) && p in R && i < 2 && p[i].end.Idle? && n <= |p[1 - i].flight|
    ensures p' in R && p'[i].end.Idle? && p'[i].wins == p[i].wins && p'[1 - i].flight == p[1 - i].flight[n..]
    decreases n
  {
    if n == 0 {
      assert p[1 - i].flight[0..] == p[1 - i].flight;
      return p;
    }
    var p1 := OneTakes(R, NoDial, p, i);
    var p2 := OneDoes(R, NoDial, p1, i, GiveUp);
    p' := SpoilsSome(R, p2, i, n - 1);
    assert p[1 - i].flight[1..][n - 1..] == p[1 - i].flight[n..];
  }

  lemma OfferWillCome(peer: Side)
    requires LogInv(peer) && Offering(peer) && OfferComing(peer)
    ensures var all := peer.flight + Rest(Offerer, peer.end.sent);
            all != [] && all[|all| - 1] == Done && exists k :: 0 <= k < |all| && all[k].Offer?
  {
    var all := peer.flight + Rest(Offerer, peer.end.sent);
    if peer.end.sent == [] {
      assert all[|peer.flight|].Offer?;
    } else {
      var k :| 0 <= k < |peer.flight| && peer.flight[k].Offer?;
      assert all[k].Offer?;
    }
    RestEndsInDone(peer);
  }

  lemma IdleSideRegisters(R: iset<Pair>, p: Pair, i: nat) returns (p': Pair)
    requires ClosedUnder(R, NoDial) && p in R && i < 2 && p[i].end.Idle?
    requires LogInv(p[1 - i]) && Offering(p[1 - i]) && OfferComing(p[1 - i])
    ensures p' in R && p'[i].wins == p[i].wins + 1
  {
    OfferWillCome(p[1 - i]);
    var p1 := Finishes(R, NoDial, p, 1 - i);
    var flight := p1[1 - i].flight;
    var m := LastOffer(flight);
    var p2 := SpoilsSome(R, p1, i, m);
    assert p2[1 - i].flight == flight[m..] && flight[m..][1..] == flight[m + 1..];
    p' := LastOfferRegisters(R, NoDial, p2, i);
  }

  // --- the results --------------------------------------------------------------------------------

  /** Some run with no new dial, and no exit before the other's offers but a forced one, registers. */
  ghost predicate GlareRegisters(p: Pair) {
    exists steps :: PairRun(p, steps) && GlareRun(p, steps) && Registered(p, PairEnd(p, steps))
  }

  predicate Registered(p: Pair, q: Pair) {
    q[0].wins != p[0].wins || q[1].wins != p[1].wins
  }

  lemma {:induction false} ForcedIsGlare(p: Pair, steps: seq<PairStep>)
    requires PairRun(p, steps) && RunUnder(OnlyForced, p, steps)
    ensures GlareRun(p, steps)
    decreases |steps|
  {
    if steps != [] {
      ForcedIsGlare(PairAfter(p, steps[0]), steps[1..]);
    }
  }

  lemma LedToRegistration(p: Pair, q: Pair)
    requires LeadsTo(OnlyForced, p, q) && Registered(p, q)
    ensures GlareRegisters(p)
  {
    var steps :| PairRun(p, steps) && RunUnder(OnlyForced, p, steps) && PairEnd(p, steps) == q;
    ForcedIsGlare(p, steps);
  }

  /** Nothing stale is to come from `peer`: one offer at most, ahead of any `Done`, and it fits. */
  predicate NothingStale(peer: Side) {
    Clear(peer, INBOX_CAP) && OffersToCome(peer) <= 1
  }

  lemma StaleMeansRegisters(p: Pair, i: nat)
    requires i < 2 && BothOffer(p) && LogInv(p[1 - i]) && !NothingStale(p[1 - i])
    ensures GlareRegisters(p)
  {
    var R := FromHere(OnlyForced, p);
    var q;
    if Clear(p[1 - i], INBOX_CAP) {
      q := SecondOfferRegisters(R, p, i);
    } else {
      q := UnclearRegisters(R, OnlyForced, p, i);
    }
    assert LeadsTo(OnlyForced, p, q);
    LedToRegistration(p, q);
  }

  lemma NothingStaleIsDoomed(p: Pair)
    requires BothOffer(p) && NothingStale(p[0]) && NothingStale(p[1])
    ensures Doomed(p[0], p[1])
  {
  }

  /**
   * Both sides hold offerer slots and have heard nothing yet. No run registers a channel, on either
   * side, exactly when nothing stale is to come from either. Runs contain no new dial, and a session
   * exits while an offer of the other's is to come only if what it heard forces it to.
   */
  lemma GlareFailsIff(p: Pair)
    requires ReachablePair(p) && BothOffer(p)
    ensures !GlareRegisters(p) <==> NothingStale(p[0]) && NothingStale(p[1])
  {
    ReachableKeepsPair(p);
    if !NothingStale(p[0]) {
      StaleMeansRegisters(p, 1);
    } else if !NothingStale(p[1]) {
      StaleMeansRegisters(p, 0);
    } else {
      NothingStaleIsDoomed(p);
      forall steps | PairRun(p, steps) && GlareRun(p, steps) ensures !Registered(p, PairEnd(p, steps)) {
        DoomedNeverRegister(p, steps);
      }
    }
  }

  /**
   * An exit nothing forces is another matter: in every reachable state, a session that gives up
   * before the offer of a peer that is offering has come may go on to answer it.
   */
  lemma EarlyExitRegisters(p: Pair, i: nat) returns (q: Pair)
    requires ReachablePair(p) && i < 2 && p[i].end.Busy? && Offering(p[1 - i]) && OfferComing(p[1 - i])
    ensures PairEnabled(p, Act(i, GiveUp)) && LeadsTo(NoDial, PairAfter(p, Act(i, GiveUp)), q)
    ensures q[i].wins == p[i].wins + 1
  {
    PeerLogHolds(p, i);
    q := ExitedSideRegisters(PairAfter(p, Act(i, GiveUp)), i);
  }

  lemma PeerLogHolds(p: Pair, i: nat)
    requires ReachablePair(p) && i < 2
    ensures LogInv(p[1 - i])
  {
    ReachableKeepsPair(p);
  }

  lemma ExitedSideRegisters(p: Pair, i: nat) returns (q: Pair)
    requires i < 2 && p[i].end.Idle? && LogInv(p[1 - i]) && Offering(p[1 - i]) && OfferComing(p[1 - i])
    ensures LeadsTo(NoDial, p, q) && q[i].wins == p[i].wins + 1
  {
    var R := FromHere(NoDial, p);
    q := IdleSideRegisters(R, p, i);
  }

  // --- all of it happens ----------------------------------------------------------------------------

  lemma CleanFlight(R: iset<Pair>) returns (p: Pair)
    requires ClosedUnder(R, Anything) && Start in R
    ensures p in R && p[0].end == Busy(Offerer, [], [], []) && p[0].flight == []
    ensures p[1].end == Busy(Offerer, Script3, [], []) && p[1].flight == Script3
  {
    var p1 := OneDoes(R, Anything, Start, 0, Claim);
    p := OffererSpeaks(R, p1, 1);
    assert [] + Script3 == Script3;
  }

  lemma Script3Offers()
    ensures OffersIn(Script3) == 1
  {
    assert Script3[1..] == [EndOfCandidates, Done] && Script3[1..][1..] == [Done];
    NoneIn(Script3[1..]);
  }

  /** Two dials collide with nothing stale to come: neither registers. */
  lemma CleanGlareHappens() returns (p: Pair)
    ensures ReachablePair(p) && BothOffer(p) && OfferComing(p[1]) && !GlareRegisters(p)
  {
    var R := FromHere(Anything, Start);
    p := CleanFlight(R);
    LedToIsReachable(p);
    assert p[1].flight[0].Offer?;
    Script3Offers();
    GlareFailsIff(p);
  }

  lemma StaleFlight(R: iset<Pair>) returns (p: Pair)
    requires ClosedUnder(R, Anything) && Start in R
    ensures p in R && BothOffer(p) && p[0].flight == [EndOfCandidates, Done]
  {
    var p1 := OffererSpeaks(R, Start, 0);
    assert p1[0].flight == Script3;
    var p2 := OneTakes(R, Anything, p1, 1);
    var p3 := OneDoes(R, Anything, p2, 1, GiveUp);
    var p4 := OneDoes(R, Anything, p3, 0, GiveUp);
    var p5 := OneDoes(R, Anything, p4, 0, Claim);
    p := OneDoes(R, Anything, p5, 1, Claim);
  }

  /** A collision with the tail of an earlier script still to come: one side registers on it. */
  lemma StaleTailRegisters() returns (p: Pair)
    ensures ReachablePair(p) && BothOffer(p) && !Clear(p[0], INBOX_CAP) && GlareRegisters(p)
  {
    var R := FromHere(Anything, Start);
    p := StaleFlight(R);
    LedToIsReachable(p);
    assert !Decides(p[0].flight[0]) && p[0].flight[1..] == [Done] && FirstDeciding([Done]) == 0;
    assert FirstDeciding(p[0].flight) == 1;
    GlareFailsIff(p);
  }

  lemma StaleOfferFlight(R: iset<Pair>) returns (p: Pair)
    requires ClosedUnder(R, Anything) && Start in R
    ensures p in R && p[0].end == p[1].end == Busy(Offerer, [], [], [])
    ensures p[0].flight == [AnOffer] && p[1].flight == []
  {
    var p1 := OneDoes(R, Anything, Start, 0, Claim);
    var p2 := OneSays(R, Anything, p1, 0, AnOffer);
    var p3 := OneDoes(R, Anything, p2, 0, GiveUp);
    var p4 := OneDoes(R, Anything, p3, 0, Claim);
    p := OneDoes(R, Anything, p4, 1, Claim);
  }

  lemma StaleOfferToCome(peer: Side)
    requires peer.end == Busy(Offerer, [], [], []) && peer.flight == [AnOffer]
    ensures Clear(peer, INBOX_CAP) && OffersToCome(peer) == 2
  {
    assert peer.flight[0].Offer? && peer.flight[1..] == [];
    assert OffersIn(peer.flight) == 1 + OffersIn(peer.flight[1..]) == 1;
  }

  /** A collision with the offer of an earlier session ahead of the live one's: the second is answered. */
  lemma StaleOfferRegisters() returns (p: Pair)
    ensures ReachablePair(p) && BothOffer(p) && Clear(p[0], INBOX_CAP) && Clear(p[1], INBOX_CAP)
    ensures OffersToCome(p[0]) == 2 && GlareRegisters(p)
  {
    var R := FromHere(Anything, Start);
    p := StaleOfferFlight(R);
    LedToIsReachable(p);
    StaleOfferToCome(p[0]);
    GlareFailsIff(p);
  }
}
