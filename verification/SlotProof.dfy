/** One session per slot, and signals that reach only the session they were filed for. */
module SlotProof {
  import opened Types
  import opened Signals
  import opened Endpoint
  import opened System
  import opened Invariants

  ghost predicate Dancing(slots: Slots, d: Dance) {
    SlotInv(slots, d) && InboxInv(slots, d)
  }

  /** A session claiming a free slot becomes its owner; nobody else is touched. */
  lemma ClaimKeepsDance(slots: Slots, d: Dance, i: nat, t: Session)
    requires Dancing(slots, d) && t.peer !in slots.signaling
    requires i <= d.nextSession && (i in d.sessions ==> !d.sessions[i].live)
    requires t.live && t.filed == [] && t.got == []
    ensures Dancing(ClaimSlot(slots, t.peer, t.via),
                    Dance(d.sessions[i := t], if i == d.nextSession then i + 1 else d.nextSession,
                          d.owner[t.peer := i]))
  {
  }

  lemma BeginKeepsDance(slots: Slots, d: Dance, i: nat)
    requires Dancing(slots, d) && i in d.sessions && !d.sessions[i].live
    ensures d.sessions[i].peer in slots.signaling ==> Dancing(slots, d.(sessions := d.sessions - {i}))
    ensures var t := d.sessions[i];
            t.peer !in slots.signaling ==>
            Dancing(ClaimSlot(slots, t.peer, t.via),
                    d.(sessions := d.sessions[i := t.(live := true)], owner := d.owner[t.peer := i]))
  {
    if d.sessions[i].peer !in slots.signaling {
      assert ReadsItsOwn(d.sessions[i], InboxOf(slots, d.sessions[i].peer));
      ClaimKeepsDance(slots, d, i, d.sessions[i].(live := true));
    }
  }

  /** Ending a session frees its own slot and no other. */
  lemma EndKeepsDance(slots: Slots, d: Dance, i: nat)
    requires Dancing(slots, d) && i in d.sessions && d.sessions[i].live
    ensures Dancing(EndSignaling(slots, d.sessions[i].peer), WithoutSession(d, i))
  {
  }

  /** Replacing one live session's inbox and record disturbs no other session. */
  lemma UpdateKeepsDance(slots: Slots, slots': Slots, d: Dance, i: nat, t': Session)
    requires Dancing(slots, d) && i in d.sessions && d.sessions[i].live
    requires slots'.signaling == slots.signaling && slots'.inboxes.Keys <= slots'.signaling.Keys
    requires t'.live && t'.peer == d.sessions[i].peer && t'.via == d.sessions[i].via
    requires forall p :: p != t'.peer ==> InboxOf(slots', p) == InboxOf(slots, p)
    requires |InboxOf(slots', t'.peer)| <= INBOX_CAP && t'.filed == t'.got + InboxOf(slots', t'.peer)
    ensures Dancing(slots', d.(sessions := d.sessions[i := t']))
  {
    var d' := d.(sessions := d.sessions[i := t']);
    forall j | j in d'.sessions
      ensures ReadsItsOwn(d'.sessions[j], InboxOf(slots', d'.sessions[j].peer))
    {
      if j != i && d.sessions[j].live {
        assert Owns(slots, d, j) && Owns(slots, d, i);
      }
    }
    forall p | p in slots'.inboxes ensures |slots'.inboxes[p]| <= INBOX_CAP {
      assert slots'.inboxes[p] == InboxOf(slots', p);
      assert p != t'.peer ==> InboxOf(slots', p) == InboxOf(slots, p);
    }
  }

  lemma ReadKeepsDance(slots: Slots, d: Dance, i: nat)
    requires Dancing(slots, d) && i in d.sessions && d.sessions[i].live && InboxOf(slots, d.sessions[i].peer) != []
    ensures var t := d.sessions[i]; var p := InboxOf(slots, t.peer)[0];
            Dancing(PopInbox(slots, t.peer), d.(sessions := d.sessions[i := t.(got := t.got + [p])]))
  {
    var t := d.sessions[i];
    var inbox := InboxOf(slots, t.peer);
    assert t.got + inbox == t.got + [inbox[0]] + inbox[1..];
    UpdateKeepsDance(slots, PopInbox(slots, t.peer), d, i, t.(got := t.got + [inbox[0]]));
  }

  /** Filing claims a free slot and appends to one inbox, up to its cap. */
  lemma FileFrames(slots: Slots, via: nat, source: Peer, payload: Payload)
    requires slots.inboxes.Keys <= slots.signaling.Keys
    ensures var slots', inbox := FileSignal(slots, via, source, payload), InboxOf(slots, source);
            && (source in slots.signaling ==> slots'.signaling == slots.signaling)
            && (source !in slots.signaling ==> slots'.signaling == slots.signaling[source := via])
            && slots'.inboxes.Keys <= slots'.signaling.Keys
            && (forall p :: p != source ==> InboxOf(slots', p) == InboxOf(slots, p))
            && InboxOf(slots', source) == if |inbox| < INBOX_CAP then inbox + [payload] else inbox
  {
  }

  /** A signal to a claimed slot goes to the session that owns it, unless its inbox is full. */
  lemma FileKeepsDance(ep: Ep, d: Dance, via: nat, source: Peer, payload: Payload)
    requires Dancing(ep.slots, d) && source in ep.slots.signaling
    ensures Dancing(FileSignal(ep.slots, via, source, payload), DanceAfterSignal(ep, d, via, source, payload))
  {
    assert Owned(d, source);
    var i := d.owner[source];
    var t, inbox := d.sessions[i], InboxOf(ep.slots, source);
    FileFrames(ep.slots, via, source, payload);
    assert t.got + inbox + [payload] == t.got + (inbox + [payload]);
    UpdateKeepsDance(ep.slots, FileSignal(ep.slots, via, source, payload), d, i,
                     if |inbox| < INBOX_CAP then t.(filed := t.filed + [payload]) else t);
    assert d.sessions[i := t] == d.sessions;
  }

  /** The dance once `source`'s free slot is claimed for a new answerer. */
  function WithAnswerer(d: Dance, via: nat, source: Peer): Dance {
    Dance(d.sessions[d.nextSession := Session(source, via, Answerer, true, [], [], [])],
          d.nextSession + 1, d.owner[source := d.nextSession])
  }

  /** Spawning an answerer is claiming the slot for it and then filing its first signal. */
  lemma AnswererIsClaimThenFile(ep: Ep, d: Dance, via: nat, source: Peer, payload: Payload)
    requires source !in ep.slots.signaling && source !in ep.slots.inboxes
    ensures var ep1 := ep.(slots := ClaimSlot(ep.slots, source, via)); var d1 := WithAnswerer(d, via, source);
            && FileSignal(ep.slots, via, source, payload) == FileSignal(ep1.slots, via, source, payload)
            && DanceAfterSignal(ep, d, via, source, payload) == DanceAfterSignal(ep1, d1, via, source, payload)
  {
    var i, d1 := d.nextSession, WithAnswerer(d, via, source);
    var t := Session(source, via, Answerer, true, [], [], [payload]);
    assert d1.sessions[i].(filed := d1.sessions[i].filed + [payload]) == t;
    assert d.sessions[i := t] == d1.sessions[i := t];
  }

  /** A signal to a free slot starts an answerer that owns it and will read that signal first. */
  lemma AnswererKeepsDance(ep: Ep, d: Dance, via: nat, source: Peer, payload: Payload)
    requires Dancing(ep.slots, d) && source !in ep.slots.signaling
    ensures Dancing(FileSignal(ep.slots, via, source, payload), DanceAfterSignal(ep, d, via, source, payload))
  {
    ClaimKeepsDance(ep.slots, d, d.nextSession, Session(source, via, Answerer, true, [], [], []));
    AnswererIsClaimThenFile(ep, d, via, source, payload);
    FileKeepsDance(ep.(slots := ClaimSlot(ep.slots, source, via)), WithAnswerer(d, via, source), via, source, payload);
  }

  /** A task that holds no slot yet disturbs nobody. */
  lemma IdleTaskKeepsDance(slots: Slots, d: Dance, peer: Peer, via: nat)
    requires Dancing(slots, d) && ScriptInv(d)
    ensures var d' := d.(sessions := d.sessions[d.nextSession := Session(peer, via, Offerer, false, [], [], [])],
                         nextSession := d.nextSession + 1);
            Dancing(slots, d') && ScriptInv(d')
  {
  }

  lemma {:induction false} SpawnKeepsDance(slots: Slots, d: Dance, upgrades: seq<(Peer, nat)>)
    requires Dancing(slots, d) && ScriptInv(d)
    ensures Dancing(slots, Spawned(d, upgrades)) && ScriptInv(Spawned(d, upgrades))
    decreases |upgrades|
  {
    if upgrades != [] {
      var d' := d.(sessions := d.sessions[d.nextSession :=
                     Session(upgrades[0].0, upgrades[0].1, Offerer, false, [], [], [])],
                   nextSession := d.nextSession + 1);
      IdleTaskKeepsDance(slots, d, upgrades[0].0, upgrades[0].1);
      SpawnKeepsDance(slots, d', upgrades[1..]);
    }
  }

  lemma ApiFrames(s: Sys, step: ApiStep)
    requires ApiEnabled(s, step)
    ensures var s' := ApplyApi(s, step); s'.ep.slots == s.ep.slots && s'.dance == s.dance
  {
  }

  lemma SessionKeepsDance(s: Sys, step: SessionStep)
    requires Dancing(s.ep.slots, s.dance) && SessionEnabled(s, step)
    ensures var s' := ApplySession(s, step); Dancing(s'.ep.slots, s'.dance)
  {
    var slots, d, i := s.ep.slots, s.dance, step.i;
    match step
    case Begin(_) => BeginKeepsDance(slots, d, i);
    case Publish(_, signal, _) =>
      UpdateKeepsDance(slots, slots, d, i, d.sessions[i].(sent := d.sessions[i].sent + [signal]));
    case Read(_) =>
      if ClosedOrDead(s.ep) {
        EndKeepsDance(slots, d, i);
      } else if InboxOf(slots, d.sessions[i].peer) != [] {
        ReadKeepsDance(slots, d, i);
      }
    case Abandon(_) => EndKeepsDance(slots, d, i);
    case Succeed(_) => EndKeepsDance(slots, d, i);
  }

  lemma SessionKeepsScript(s: Sys, step: SessionStep)
    requires ScriptInv(s.dance) && SessionEnabled(s, step)
    ensures ScriptInv(ApplySession(s, step).dance)
  {
    var t := s.dance.sessions[step.i];
    match step
    case Publish(_, signal, _) => PublishKeepsScript(t.role, t.sent, t.got, signal);
    case Read(_) =>
      if InboxOf(s.ep.slots, t.peer) != [] {
        HeardAppends(t.got, InboxOf(s.ep.slots, t.peer)[0]);
      }
    case _ =>
  }

  lemma TurnKeepsDance(s: Sys, step: TurnStep)
    requires Dancing(s.ep.slots, s.dance) && ScriptInv(s.dance) && TurnEnabled(s, step)
    ensures var s' := ApplyTurn(s, step); Dancing(s'.ep.slots, s'.dance) && ScriptInv(s'.dance)
  {
    SpawnKeepsDance(s.ep.slots, s.dance, s.ep.pendingUpgrades);
  }

  /** Only a signal the endpoint takes reaches the slots. */
  lemma SelectFrames(s: Sys, step: SelectStep)
    requires SelectEnabled(s, step)
    ensures var s' := ApplySelect(s, step);
            if step.RelayDatagram? && step.data != [] && step.data[0] == SIGNAL_PREFIX && TakesSignals(s.ep)
            then && s'.ep.slots == FileSignal(s.ep.slots, step.key, step.source, step.parsed)
                 && s'.dance == DanceAfterSignal(s.ep, s.dance, step.key, step.source, step.parsed)
            else s'.ep.slots == s.ep.slots && s'.dance == s.dance
  {
  }

  lemma SignalKeepsDance(ep: Ep, d: Dance, via: nat, source: Peer, payload: Payload)
    requires Dancing(ep.slots, d)
    ensures Dancing(FileSignal(ep.slots, via, source, payload), DanceAfterSignal(ep, d, via, source, payload))
  {
    if source in ep.slots.signaling {
      FileKeepsDance(ep, d, via, source, payload);
    } else {
      AnswererKeepsDance(ep, d, via, source, payload);
    }
  }

  lemma SignalKeepsScript(ep: Ep, d: Dance, via: nat, source: Peer, payload: Payload)
    requires ScriptInv(d)
    ensures ScriptInv(DanceAfterSignal(ep, d, via, source, payload))
  {
  }

  lemma SelectKeepsDance(s: Sys, step: SelectStep)
    requires Dancing(s.ep.slots, s.dance) && ScriptInv(s.dance) && SelectEnabled(s, step)
    ensures var s' := ApplySelect(s, step); Dancing(s'.ep.slots, s'.dance) && ScriptInv(s'.dance)
  {
    SelectFrames(s, step);
    if step.RelayDatagram? {
      SignalKeepsDance(s.ep, s.dance, step.key, step.source, step.parsed);
      SignalKeepsScript(s.ep, s.dance, step.key, step.source, step.parsed);
    }
  }
}
