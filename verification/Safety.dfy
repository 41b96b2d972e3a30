/** The invariant holds initially and is kept by every step, hence in every run. */
module Safety {
  import opened RoutingTables
  import opened Endpoint
  import opened System
  import opened Invariants
  import opened RoutingProof
  import opened OutboundProof
  import opened InboundProof
  import opened WireProof
  import opened SlotProof
  import opened ConnProof
  import opened RelayProof

  lemma InitKeys(homeUrl: string, webrtcEnabled: bool)
    ensures var s := Init(homeUrl, webrtcEnabled);
            && PoolInv(s.ep.relays, s.opens) && OpenInv(s.ep.relays, s.opens)
            && RelayArmInv(s.pump, s.ep.relays, s.ep.dead)
  {
    var r := RegisterRelay(Relays({}, map[], {}, [], 0), homeUrl);
    assert r.keys == map[Normalize(homeUrl) := 0] && r.keys.Keys == {Normalize(homeUrl)};
    assert r.pool == {0} && r.newRelays == [0] && r.nextKey == 1;
  }

  lemma InitTables(homeUrl: string, webrtcEnabled: bool)
    ensures var s := Init(homeUrl, webrtcEnabled);
            && RoutingInv(s.ep.routing) && FeedInv(s.ep.routing, s.feed) && SendInv(s.ep.routing, s.ep.out, s.sends)
            && RouteKeysBelow(s.ep.routing, s.ep.relays.nextKey) && TaskKeysBelow(s, s.ep.relays.nextKey)
  {
  }

  lemma InitIsSafe(homeUrl: string, webrtcEnabled: bool)
    ensures Inv(Init(homeUrl, webrtcEnabled))
  {
    InitKeys(homeUrl, webrtcEnabled);
    InitTables(homeUrl, webrtcEnabled);
  }

  lemma ApiIsSafe(s: Sys, step: ApiStep)
    requires Inv(s) && CountersInRange(s) && ApiEnabled(s, step)
    ensures Inv(ApplyApi(s, step))
  {
    ApiEffectIsExact(s, step);
    OpKeeps(s.ep.routing, ApiEffect(s, step));
    ApiKeepsKeys(s, step);
    ApiKeepsOpening(s, step);
    ApiKeepsRelayReceives(s, step);
    ApiKeepsChannelReceives(s, step);
    ApiKeepsDeath(s, step);
    SlotProof.ApiFrames(s, step);
    ApiKeepsConns(s, step);
    ApiKeepsSends(s, step);
    ApiKeepsFeed(s, step);
  }

  lemma SessionIsSafe(s: Sys, step: SessionStep)
    requires Inv(s) && CountersInRange(s) && SessionEnabled(s, step)
    ensures Inv(ApplySession(s, step))
  {
    SessionEffectIsExact(s, step);
    OpKeeps(s.ep.routing, SessionEffect(s, step));
    SessionKeepsRelays(s, step);
    SessionKeepsKeys(s, step);
    SessionKeepsChannelReceives(s, step);
    SessionKeepsDeath(s, step);
    SessionKeepsDance(s, step);
    SessionKeepsScript(s, step);
    SessionFrames(s, step);
    SessionKeepsSends(s, step);
    SessionKeepsFeed(s, step);
  }

  lemma TurnIsSafe(s: Sys, step: TurnStep)
    requires Inv(s) && CountersInRange(s) && TurnEnabled(s, step)
    ensures Inv(ApplyTurn(s, step))
  {
    TurnEffectIsExact(s, step);
    OpKeeps(s.ep.routing, if step.Arm? then Taken else Keep);
    TurnFrames(s, step);
    TurnKeepsKeys(s, step);
    PoolChangeKeepsOpening(s.ep.relays, s.opens, s.ep.relays.pool, ApplyTurn(s, step).ep.relays.newRelays);
    TurnKeepsRelayReceives(s, step);
    TurnKeepsChannelReceives(s, step);
    TurnKeepsDeath(s, step);
    TurnKeepsDance(s, step);
    TurnKeepsConns(s, step);
    TurnKeepsSends(s, step);
    TurnKeepsFeed(s, step);
  }

  lemma SelectIsSafe(s: Sys, step: SelectStep)
    requires Inv(s) && CountersInRange(s) && SelectEnabled(s, step)
    ensures Inv(ApplySelect(s, step))
  {
    SelectEffectIsExact(s, step);
    OpKeeps(s.ep.routing, SelectEffect(s, step));
    EventFrames(s, step);
    SelectKeepsKeys(s, step);
    PoolChangeKeepsOpening(s.ep.relays, s.opens, ApplySelect(s, step).ep.relays.pool, s.ep.relays.newRelays);
    SelectKeepsRelayReceives(s, step);
    SelectKeepsChannelReceives(s, step);
    SelectKeepsDeath(s, step);
    SelectKeepsDance(s, step);
    SelectKeepsConns(s, step);
    SelectKeepsSends(s, step);
    SelectKeepsFeed(s, step);
  }

  lemma TeardownIsSafe(s: Sys, step: TeardownStep)
    requires Inv(s) && CountersInRange(s) && TeardownEnabled(s, step)
    ensures Inv(ApplyTeardown(s, step))
  {
    TeardownKeepsRelayReceives(s, step);
    TeardownKeepsChannelReceives(s, step);
  }

  lemma StepIsSafe(s: Sys, step: Step)
    requires Inv(s) && Enabled(s, step)
    ensures Inv(Apply(s, step))
  {
    match step
    case Api(a) => ApiIsSafe(s, a);
    case InSession(t) => SessionIsSafe(s, t);
    case Turn(t) => TurnIsSafe(s, t);
    case Select(e) => SelectIsSafe(s, e);
    case Teardown(t) => TeardownIsSafe(s, t);
  }

  /** The invariant survives every run. */
  lemma {:induction false} RunIsSafe(s: Sys, steps: seq<Step>)
    requires Inv(s) && ValidRun(s, steps)
    ensures Inv(After(s, steps))
    decreases |steps|
  {
    if steps != [] {
      StepIsSafe(s, steps[0]);
      RunIsSafe(Apply(s, steps[0]), steps[1..]);
    }
  }
}
