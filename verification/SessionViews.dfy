/** A bound endpoint, seen through its slot for one peer, is a side of the two-party dance. */
module SessionViews {
  import opened Types
  import opened RoutingTables
  import opened Signals
  import opened Endpoint
  import opened System
  import opened Invariants
  import opened RoutingProof
  import opened SlotProof
  import opened TwoParty
  import opened Theorems

  function View(slots: Slots, d: Dance, p: Peer): End {
    if p in d.owner && d.owner[p] in d.sessions then
      var t := d.sessions[d.owner[p]];
      Busy(t.role, t.sent, t.got, InboxOf(slots, p))
    else Idle
  }

  function ViewOf(s: Sys, p: Peer): End {
    View(s.ep.slots, s.dance, p)
  }

  /** What a step of session `i`'s amounts to for its peer's slot. */
  function SessionSeen(s: Sys, step: SessionStep): Option<EndStep>
    requires SessionEnabled(s, step)
  {
    var t := s.dance.sessions[step.i];
    match step
    case Begin(_) => if t.peer in s.ep.slots.signaling then None else Some(Claim)
    case Publish(_, signal, _) => Some(Say(signal))
    case Read(_) =>
      if ClosedOrDead(s.ep) then Some(GiveUp)
      else if InboxOf(s.ep.slots, t.peer) == [] then None
      else Some(Hear)
    case Abandon(_) => Some(GiveUp)
    case Succeed(_) => Some(Conclude)
  }

  /** What a step amounts to for the slot of `p`: nothing, or one step of the dance. */
  function Seen(s: Sys, step: Step, p: Peer): Option<EndStep>
    requires Enabled(s, step)
  {
    match step
    case InSession(t) => if s.dance.sessions[t.i].peer == p then SessionSeen(s, t) else None
    case Select(RelayDatagram(_, source, data, parsed, _)) =>
      if source == p && data != [] && data[0] == 0 && s.ep.webrtcEnabled && !s.ep.closed && !s.ep.dead
      then Some(File(parsed)) else None
    case _ => None
  }

  predicate Follows(e: End, seen: Option<EndStep>, e': End) {
    match seen
    case None => e' == e
    case Some(step) => EndEnabled(e, step) && e' == EndAfter(e, step)
  }

  ghost predicate SlotsOk(s: Sys) {
    Dancing(s.ep.slots, s.dance) && ScriptInv(s.dance)
  }

  /** What matters about the slot of `p`. */
  ghost predicate SlotOk(slots: Slots, d: Dance, p: Peer) {
    && slots.inboxes.Keys <= slots.signaling.Keys
    && (p in d.owner <==> p in slots.signaling)
    && (p in d.owner ==> Owned(d, p))
  }

  lemma EachSlotOk(s: Sys, p: Peer)
    requires SlotsOk(s)
    ensures SlotOk(s.ep.slots, s.dance, p)
  {
  }

  /** What matters about session `i`. */
  ghost predicate TaskOk(s: Sys, i: nat)
    requires i in s.dance.sessions
  {
    var t := s.dance.sessions[i];
    if t.live then Owns(s.ep.slots, s.dance, i) else t == Session(t.peer, t.via, Offerer, false, [], [], [])
  }

  lemma EachTaskOk(s: Sys, i: nat)
    requires SlotsOk(s) && i in s.dance.sessions
    ensures TaskOk(s, i)
  {
    var t := s.dance.sessions[i];
    assert InStep(t) && ReadsItsOwn(t, InboxOf(s.ep.slots, t.peer));
  }

  lemma SessionFollows(s: Sys, step: SessionStep)
    requires SessionEnabled(s, step) && TaskOk(s, step.i)
    requires SlotOk(s.ep.slots, s.dance, s.dance.sessions[step.i].peer)
    ensures var p := s.dance.sessions[step.i].peer;
            Follows(ViewOf(s, p), SessionSeen(s, step), ViewOf(ApplySession(s, step), p))
  {
  }

  lemma SessionLeavesOthers(s: Sys, step: SessionStep, p: Peer)
    requires SessionEnabled(s, step) && TaskOk(s, step.i) && SlotOk(s.ep.slots, s.dance, p)
    requires s.dance.sessions[step.i].peer != p
    ensures ViewOf(ApplySession(s, step), p) == ViewOf(s, p)
  {
  }

  lemma {:induction false} SpawningIsUnseen(slots: Slots, d: Dance, upgrades: seq<(Peer, nat)>, p: Peer)
    requires forall q :: q in d.owner ==> d.owner[q] < d.nextSession
    ensures View(slots, Spawned(d, upgrades), p) == View(slots, d, p)
    decreases |upgrades|
  {
    if upgrades != [] {
      var d' := d.(sessions := d.sessions[d.nextSession :=
                     Session(upgrades[0].0, upgrades[0].1, Offerer, false, [], [], [])],
                   nextSession := d.nextSession + 1);
      SpawningIsUnseen(slots, d', upgrades[1..], p);
    }
  }

  lemma TurnKeepsTasks(s: Sys, step: TurnStep)
    requires TurnEnabled(s, step) && !step.Arm?
    ensures ApplyTurn(s, step).ep.slots == s.ep.slots && ApplyTurn(s, step).dance == s.dance
  {
  }

  lemma TurnIsUnseen(s: Sys, step: TurnStep, p: Peer)
    requires SlotsOk(s) && TurnEnabled(s, step)
    ensures ViewOf(ApplyTurn(s, step), p) == ViewOf(s, p)
  {
    forall q | q in s.dance.owner ensures s.dance.owner[q] < s.dance.nextSession {
      assert Owned(s.dance, q);
    }
    if step.Arm? {
      SpawningIsUnseen(s.ep.slots, s.dance, s.ep.pendingUpgrades, p);
    } else {
      TurnKeepsTasks(s, step);
    }
  }

  lemma FilingFollows(ep: Ep, d: Dance, via: nat, p: Peer, payload: Payload)
    requires SlotOk(ep.slots, d, p)
    ensures Follows(View(ep.slots, d, p), Some(File(payload)),
                    View(FileSignal(ep.slots, via, p, payload), DanceAfterSignal(ep, d, via, p, payload), p))
  {
    FileFrames(ep.slots, via, p, payload);
  }

  lemma FilingLeavesOthers(ep: Ep, d: Dance, via: nat, source: Peer, payload: Payload, p: Peer)
    requires SlotOk(ep.slots, d, p) && SlotOk(ep.slots, d, source) && source != p
    requires p in d.owner ==> d.owner[p] < d.nextSession
    ensures View(FileSignal(ep.slots, via, source, payload), DanceAfterSignal(ep, d, via, source, payload), p)
            == View(ep.slots, d, p)
  {
    FileFrames(ep.slots, via, source, payload);
  }

  lemma SelectFollows(s: Sys, step: SelectStep, p: Peer)
    requires CountersInRange(s) && SelectEnabled(s, step) && SlotOk(s.ep.slots, s.dance, p)
    requires step.RelayDatagram? ==> SlotOk(s.ep.slots, s.dance, step.source)
    requires p in s.dance.owner ==> s.dance.owner[p] < s.dance.nextSession
    ensures Follows(ViewOf(s, p), Seen(s, Select(step), p), ViewOf(ApplySelect(s, step), p))
  {
    SelectFrames(s, step);
    if step.RelayDatagram? {
      if step.source == p {
        FilingFollows(s.ep, s.dance, step.key, p, step.parsed);
      } else {
        FilingLeavesOthers(s.ep, s.dance, step.key, step.source, step.parsed, p);
      }
    }
  }

  /** Every step of a bound endpoint is, for each peer's slot, no step or one the dance allows. */
  lemma EndpointIsADancer(s: Sys, step: Step, p: Peer)
    requires Reachable(s) && Enabled(s, step)
    ensures Follows(ViewOf(s, p), Seen(s, step, p), ViewOf(Apply(s, step), p))
  {
    SlotsHold(s);
    match step {
      case Api(a) => SlotProof.ApiFrames(s, a);
      case InSession(t) =>
        EachSlotOk(s, p);
        EachTaskOk(s, t.i);
        if s.dance.sessions[t.i].peer == p {
          SessionFollows(s, t);
        } else {
          SessionLeavesOthers(s, t, p);
        }
      case Turn(t) => TurnIsUnseen(s, t, p);
      case Select(e) =>
        EachSlotOk(s, p);
        if e.RelayDatagram? {
          EachSlotOk(s, e.source);
        }
        SelectFollows(s, e, p);
      case Teardown(_) =>
    }
  }

  /** A channel appears only for a peer whose slot's session concludes in that very step. */
  lemma ChannelsComeFromConclusions(s: Sys, step: Step, id: nat)
    requires Reachable(s) && Enabled(s, step)
    requires id !in s.ep.routing.channels && id in Apply(s, step).ep.routing.channels
    ensures Seen(s, step, Apply(s, step).ep.routing.channels[id].peer) == Some(Conclude)
  {
    RoutingHolds(s);
    EffectIsExact(s, step);
    OpKeepsChannels(s.ep.routing, Effect(s, step), id);
  }
}
