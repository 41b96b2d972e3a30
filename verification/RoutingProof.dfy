/** What every step does to the routing tables, and what that keeps. */
module RoutingProof {
  import opened RoutingTables
  import opened Endpoint
  import opened System

  /** The one table operation a step performs, by kind of step. */
  function ApiEffect(s: Sys, step: ApiStep): RoutingOp {
    match step
    case Connect(peer, direct, dialKey, _, _) =>
      if ClosedOrDead(s.ep) || direct.Some? then Keep else Redialed(peer, dialKey)
    case _ => Keep
  }

  function SessionEffect(s: Sys, step: SessionStep): RoutingOp
    requires SessionEnabled(s, step)
  {
    match step
    case Succeed(i) =>
      if ClosedOrDead(s.ep) then Keep else Registered(s.dance.sessions[i].peer, ChannelFallback(s, i))
    case _ => Keep
  }

  function SelectEffect(s: Sys, step: SelectStep): RoutingOp {
    match step
    case RelayDatagram(key, source, data, _, _) =>
      if data != [] && data[0] == SIGNAL_PREFIX then Keep else Mentioned(source, key)
    case ChannelMessage(id, message, _) =>
      if message.Some? && id in s.ep.routing.channels
      then Mentioned(s.ep.routing.channels[id].peer, s.ep.routing.channels[id].fallbackRelay)
      else Keep
    case ChannelFailed(id) => Retired(id)
    case _ => Keep
  }

  function Effect(s: Sys, step: Step): RoutingOp
    requires Enabled(s, step)
  {
    match step
    case Api(a) => ApiEffect(s, a)
    case InSession(t) => SessionEffect(s, t)
    case Turn(t) => if t.Arm? then Taken else Keep
    case Select(e) => SelectEffect(s, e)
    case Teardown(_) => Keep
  }

  /**
   * Where the channel a session registers will fall back to: the session's own relay for an
   * answerer, but the home relay for an offerer, whose slot is already released.
   */
  function ChannelFallback(s: Sys, i: nat): nat
    requires i in s.dance.sessions
  {
    if s.dance.sessions[i].role.Offerer? then HOME_RELAY else FallbackRelay(s.ep, s.dance.sessions[i].peer)
  }

  lemma ApiEffectIsExact(s: Sys, step: ApiStep)
    requires ApiEnabled(s, step)
    ensures ApplyApi(s, step).ep.routing == ApplyOp(s.ep.routing, ApiEffect(s, step))
  {
  }

  lemma SessionEffectIsExact(s: Sys, step: SessionStep)
    requires SessionEnabled(s, step)
    ensures ApplySession(s, step).ep.routing == ApplyOp(s.ep.routing, SessionEffect(s, step))
  {
  }

  lemma TurnEffectIsExact(s: Sys, step: TurnStep)
    requires TurnEnabled(s, step)
    ensures ApplyTurn(s, step).ep.routing == ApplyOp(s.ep.routing, if step.Arm? then Taken else Keep)
  {
  }

  lemma SelectEffectIsExact(s: Sys, step: SelectStep)
    requires SelectEnabled(s, step)
    ensures ApplySelect(s, step).ep.routing == ApplyOp(s.ep.routing, SelectEffect(s, step))
  {
  }

  lemma EffectIsExact(s: Sys, step: Step)
    requires Enabled(s, step)
    ensures Apply(s, step).ep.routing == ApplyOp(s.ep.routing, Effect(s, step))
  {
    match step
    case Api(a) => ApiEffectIsExact(s, a);
    case InSession(t) => SessionEffectIsExact(s, t);
    case Turn(t) => TurnEffectIsExact(s, t);
    case Select(e) => SelectEffectIsExact(s, e);
    case Teardown(_) =>
  }
}
