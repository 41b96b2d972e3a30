/** Single-flight relay opening, dense keys, and no relay key out of thin air. */
module RelayProof {
  import opened Types
  import opened RoutingTables
  import opened Signals
  import opened Endpoint
  import opened System
  import opened Invariants
  import opened RoutingProof
  import opened WireProof
  import SlotProof

  ghost predicate Opening(r: Relays, o: Opens) {
    PoolInv(r, o) && OpenInv(r, o)
  }

  lemma GrantKeepsOpening(r: Relays, o: Opens, url: string)
    requires Opening(r, o) && Normalize(url) in r.keys
    ensures Opening(r, LogGrant(o, url, r.keys[Normalize(url)]))
  {
    var o' := LogGrant(o, url, r.keys[Normalize(url)]);
    forall n | n in r.opening ensures BeingOpened(o', n) {
      assert BeingOpened(o, n);
    }
  }

  lemma NewOpenerIsOnly(openers: map<nat, string>, i: nat, url: string)
    requires OneOpenerEach(openers) && i !in openers
    requires forall j :: j in openers ==> Normalize(openers[j]) != Normalize(url)
    ensures OneOpenerEach(openers[i := url])
  {
  }

  lemma ClaimKeepsOpen(r: Relays, o: Opens, url: string)
    requires OpenInv(r, o) && Normalize(url) !in r.keys && Normalize(url) !in r.opening
    ensures OpenInv(r.(opening := r.opening + {Normalize(url)}),
                    o.(openers := o.openers[o.nextOpener := url], nextOpener := o.nextOpener + 1))
  {
    var o' := o.(openers := o.openers[o.nextOpener := url], nextOpener := o.nextOpener + 1);
    NewOpenerIsOnly(o.openers, o.nextOpener, url);
    assert o.nextOpener in o'.openers && o'.openers[o.nextOpener] == url;
    assert BeingOpened(o', Normalize(url));
    forall m | m in r.opening ensures BeingOpened(o', m) {
      assert BeingOpened(o, m);
      StillOpened(o, url, m);
    }
  }

  lemma StillOpened(o: Opens, url: string, m: string)
    requires BeingOpened(o, m) && o.nextOpener !in o.openers
    ensures BeingOpened(o.(openers := o.openers[o.nextOpener := url], nextOpener := o.nextOpener + 1), m)
  {
    var j :| j in o.openers && Normalize(o.openers[j]) == m;
    assert o.openers[o.nextOpener := url][j] == o.openers[j];
  }

  /** The first caller for a URL claims it. */
  lemma ClaimKeepsOpening(r: Relays, o: Opens, url: string)
    requires Opening(r, o) && Normalize(url) !in r.keys && Normalize(url) !in r.opening
    ensures Opening(r.(opening := r.opening + {Normalize(url)}),
                    o.(openers := o.openers[o.nextOpener := url], nextOpener := o.nextOpener + 1))
  {
    ClaimKeepsOpen(r, o, url);
  }

  /** A successful open is its URL's first registration, under the next key. */
  lemma OpenedKeepsPool(r: Relays, o: Opens, url: string, ok: bool)
    requires PoolInv(r, o) && Normalize(url) !in r.keys && r.nextKey < U32_MAX
    ensures PoolInv(RelayOpenEnds(r, url, ok), o.(grants := o.grants + if ok then [Grant(url, r.nextKey)] else []))
  {
    var n, r' := Normalize(url), RelayOpenEnds(r, url, ok);
    if ok {
      assert r'.keys.Keys == r.keys.Keys + {n};
      assert |r'.keys| == |r.keys| + 1;
    }
  }

  /** An open ending, either way, frees its URL and no other. */
  lemma OpenedKeepsOpen(r: Relays, o: Opens, opener: nat, ok: bool)
    requires OpenInv(r, o) && opener in o.openers
    ensures OpenInv(RelayOpenEnds(r, o.openers[opener], ok), o.(openers := o.openers - {opener}))
  {
    var r', o' := RelayOpenEnds(r, o.openers[opener], ok), o.(openers := o.openers - {opener});
    forall m | m in r'.opening ensures m !in r'.keys && BeingOpened(o', m) {
      assert BeingOpened(o, m);
      var i :| i in o.openers && Normalize(o.openers[i]) == m;
      assert i in o'.openers && o'.openers[i] == o.openers[i];
    }
  }

  lemma OpenedKeepsOpening(r: Relays, o: Opens, opener: nat, ok: bool)
    requires Opening(r, o) && opener in o.openers && r.nextKey < U32_MAX
    ensures var url := o.openers[opener];
            Opening(RelayOpenEnds(r, url, ok),
                    o.(openers := o.openers - {opener},
                       grants := o.grants + if ok then [Grant(url, r.nextKey)] else []))
  {
    var url := o.openers[opener];
    OpenedKeepsPool(r, o, url, ok);
    OpenedKeepsOpen(r, o, opener, ok);
    var o' := o.(openers := o.openers - {opener}, grants := o.grants + if ok then [Grant(url, r.nextKey)] else []);
    forall m | m in RelayOpenEnds(r, url, ok).opening ensures BeingOpened(o', m) {
      assert BeingOpened(o.(openers := o.openers - {opener}), m);
    }
  }

  /** What a resource method does to the pool and the opens. */
  lemma ApiFrames(s: Sys, step: ApiStep)
    requires ApiEnabled(s, step)
    ensures var r', o' := ApplyApi(s, step).ep.relays, ApplyApi(s, step).opens; var r, o := s.ep.relays, s.opens;
            match step
            case EnsureRelay(url) =>
              var n := Normalize(url);
              if n in r.keys then r' == r && o' == LogGrant(o, url, r.keys[n])
              else if ClosedOrDead(s.ep) || n in r.opening then r' == r && o' == o
              else && r' == r.(opening := r.opening + {n})
                   && o' == o.(openers := o.openers[o.nextOpener := url], nextOpener := o.nextOpener + 1)
            case AwaitRelay(url) =>
              r' == r && o' == if Normalize(url) in r.keys then LogGrant(o, url, r.keys[Normalize(url)]) else o
            case RelayOpened(opener, ok) =>
              && r' == RelayOpenEnds(r, o.openers[opener], ok)
              && o' == o.(openers := o.openers - {opener},
                          grants := o.grants + if ok then [Grant(o.openers[opener], r.nextKey)] else [])
            case _ => r' == r && o' == o
  {
  }

  lemma EnsureKeepsOpening(s: Sys, url: string)
    requires Opening(s.ep.relays, s.opens)
    ensures var s' := ApplyApi(s, EnsureRelay(url)); Opening(s'.ep.relays, s'.opens)
  {
    ApiFrames(s, EnsureRelay(url));
    var r, o := s.ep.relays, s.opens;
    if Normalize(url) in r.keys {
      GrantKeepsOpening(r, o, url);
    } else if !ClosedOrDead(s.ep) && Normalize(url) !in r.opening {
      ClaimKeepsOpening(r, o, url);
    }
  }

  lemma ApiKeepsOpening(s: Sys, step: ApiStep)
    requires Opening(s.ep.relays, s.opens) && ApiEnabled(s, step) && s.ep.relays.nextKey < U32_MAX
    ensures var s' := ApplyApi(s, step); Opening(s'.ep.relays, s'.opens)
  {
    var r, o := s.ep.relays, s.opens;
    ApiFrames(s, step);
    match step
    case EnsureRelay(url) => EnsureKeepsOpening(s, url);
    case AwaitRelay(url) =>
      if Normalize(url) in r.keys {
        GrantKeepsOpening(r, o, url);
      }
    case RelayOpened(opener, ok) => OpenedKeepsOpening(r, o, opener, ok);
    case _ =>
  }

  /** Shrinking the pool or arming receives leaves keys and opens alone. */
  lemma PoolChangeKeepsOpening(r: Relays, o: Opens, pool: set<nat>, waiting: seq<nat>)
    requires Opening(r, o) && pool <= r.pool
    ensures Opening(r.(pool := pool, newRelays := waiting), o)
  {
  }

  // --- keys in use ------------------------------------------------------------------------------

  /** The relay key an operation writes into the tables. */
  predicate OpKeyBelow(op: RoutingOp, n: nat) {
    op.Mentioned? || op.Redialed? || op.Registered? ==> op.via < n
  }

  lemma OpKeepsKeys(r: Routing, op: RoutingOp, n: nat, n': nat)
    requires RouteKeysBelow(r, n) && OpKeyBelow(op, n) && n <= n'
    ensures RouteKeysBelow(ApplyOp(r, op), n')
  {
  }

  ghost predicate Keyed(s: Sys) {
    && RouteKeysBelow(s.ep.routing, s.ep.relays.nextKey)
    && TaskKeysBelow(s, s.ep.relays.nextKey)
    && PoolInv(s.ep.relays, s.opens)
  }

  lemma ApiKeepsKeys(s: Sys, step: ApiStep)
    requires Keyed(s) && ApiEnabled(s, step) && s.ep.relays.nextKey < U32_MAX
    ensures var s' := ApplyApi(s, step); var n := s'.ep.relays.nextKey;
            RouteKeysBelow(s'.ep.routing, n) && TaskKeysBelow(s', n)
  {
    var s' := ApplyApi(s, step);
    ApiEffectIsExact(s, step);
    ApiFrames(s, step);
    OpKeepsKeys(s.ep.routing, ApiEffect(s, step), s.ep.relays.nextKey, s'.ep.relays.nextKey);
    assert s'.ep.slots == s.ep.slots && s'.dance == s.dance;
  }

  lemma SessionKeepsSlotKeys(s: Sys, step: SessionStep, n: nat)
    requires SessionEnabled(s, step) && s.dance.sessions[step.i].via < n
    requires forall p :: p in s.ep.slots.signaling ==> s.ep.slots.signaling[p] < n
    ensures var slots' := ApplySession(s, step).ep.slots; forall p :: p in slots'.signaling ==> slots'.signaling[p] < n
  {
  }

  lemma SessionKeepsVias(s: Sys, step: SessionStep, n: nat)
    requires SessionEnabled(s, step) && forall i :: i in s.dance.sessions ==> s.dance.sessions[i].via < n
    ensures var d' := ApplySession(s, step).dance; forall i :: i in d'.sessions ==> d'.sessions[i].via < n
  {
  }

  lemma SessionKeepsTaskKeys(s: Sys, step: SessionStep)
    requires TaskKeysBelow(s, s.ep.relays.nextKey) && SessionEnabled(s, step)
    ensures TaskKeysBelow(ApplySession(s, step), s.ep.relays.nextKey)
  {
    SessionKeepsRelays(s, step);
    SessionKeepsSlotKeys(s, step, s.ep.relays.nextKey);
    SessionKeepsVias(s, step, s.ep.relays.nextKey);
    SessionKeepsUpgrades(s, step);
  }

  lemma SessionKeepsUpgrades(s: Sys, step: SessionStep)
    requires SessionEnabled(s, step)
    ensures ApplySession(s, step).ep.pendingUpgrades == s.ep.pendingUpgrades
  {
  }

  lemma SessionKeepsKeys(s: Sys, step: SessionStep)
    requires Keyed(s) && SessionEnabled(s, step)
    ensures var s' := ApplySession(s, step); var n := s'.ep.relays.nextKey;
            RouteKeysBelow(s'.ep.routing, n) && TaskKeysBelow(s', n)
  {
    SessionEffectIsExact(s, step);
    SessionKeepsRelays(s, step);
    SessionKeepsTaskKeys(s, step);
    OpKeepsKeys(s.ep.routing, SessionEffect(s, step), s.ep.relays.nextKey, s.ep.relays.nextKey);
  }

  lemma {:induction false} SpawnKeepsKeys(d: Dance, upgrades: seq<(Peer, nat)>, n: nat)
    requires forall i :: i in d.sessions ==> d.sessions[i].via < n
    requires forall u :: u in upgrades ==> u.1 < n
    ensures var d' := Spawned(d, upgrades); forall i :: i in d'.sessions ==> d'.sessions[i].via < n
    decreases |upgrades|
  {
    if upgrades != [] {
      assert upgrades[0] in upgrades;
      var d' := d.(sessions := d.sessions[d.nextSession :=
                     Session(upgrades[0].0, upgrades[0].1, Offerer, false, [], [], [])],
                   nextSession := d.nextSession + 1);
      forall u | u in upgrades[1..] ensures u.1 < n {
        assert u in upgrades;
      }
      SpawnKeepsKeys(d', upgrades[1..], n);
      assert Spawned(d, upgrades) == Spawned(d', upgrades[1..]);
    }
  }

  lemma TurnTasks(s: Sys, step: TurnStep)
    requires TurnEnabled(s, step)
    ensures var s' := ApplyTurn(s, step);
            && s'.ep.slots == s.ep.slots && s'.opens == s.opens
            && (step.Arm? ==> s'.dance == Spawned(s.dance, s.ep.pendingUpgrades) && s'.ep.pendingUpgrades == [])
            && (!step.Arm? ==> s'.dance == s.dance && s'.ep.pendingUpgrades == s.ep.pendingUpgrades)
  {
  }

  lemma TurnKeepsTaskKeys(s: Sys, step: TurnStep, n: nat)
    requires TaskKeysBelow(s, n) && TurnEnabled(s, step)
    ensures TaskKeysBelow(ApplyTurn(s, step), n)
  {
    TurnTasks(s, step);
    if step.Arm? {
      SpawnKeepsKeys(s.dance, s.ep.pendingUpgrades, n);
    }
  }

  lemma TurnKeepsKeys(s: Sys, step: TurnStep)
    requires Keyed(s) && TurnEnabled(s, step)
    ensures var s' := ApplyTurn(s, step); var n := s'.ep.relays.nextKey;
            RouteKeysBelow(s'.ep.routing, n) && TaskKeysBelow(s', n)
  {
    TurnEffectIsExact(s, step);
    TurnFrames(s, step);
    TurnKeepsTaskKeys(s, step, s.ep.relays.nextKey);
    OpKeepsKeys(s.ep.routing, if step.Arm? then Taken else Keep, s.ep.relays.nextKey, s.ep.relays.nextKey);
  }

  lemma SignalKeepsKeys(s: Sys, step: SelectStep)
    requires TaskKeysBelow(s, s.ep.relays.nextKey) && SelectEnabled(s, step)
    requires step.RelayDatagram? ==> step.key < s.ep.relays.nextKey
    ensures TaskKeysBelow(ApplySelect(s, step), s.ep.relays.nextKey)
  {
    SlotProof.SelectFrames(s, step);
    var s' := ApplySelect(s, step);
    assert s'.ep.pendingUpgrades == s.ep.pendingUpgrades && s'.opens == s.opens;
  }

  lemma EventKeepsRouteKeys(s: Sys, step: SelectStep)
    requires RouteKeysBelow(s.ep.routing, s.ep.relays.nextKey) && SelectEnabled(s, step)
    requires step.RelayDatagram? ==> step.key < s.ep.relays.nextKey
    ensures RouteKeysBelow(ApplySelect(s, step).ep.routing, s.ep.relays.nextKey)
  {
    SelectEffectIsExact(s, step);
    OpKeepsKeys(s.ep.routing, SelectEffect(s, step), s.ep.relays.nextKey, s.ep.relays.nextKey);
  }

  lemma SelectKeepsKeys(s: Sys, step: SelectStep)
    requires Keyed(s) && SelectEnabled(s, step)
    requires RelayArmInv(s.pump, s.ep.relays, s.ep.dead)
    ensures var s' := ApplySelect(s, step); var n := s'.ep.relays.nextKey;
            RouteKeysBelow(s'.ep.routing, n) && TaskKeysBelow(s', n)
  {
    EventFrames(s, step);
    ArmedIsRegistered(s.pump.armedRelays, s.ep.relays.newRelays, s.ep.relays.pool);
    SignalKeepsKeys(s, step);
    EventKeepsRouteKeys(s, step);
  }
}
