/**
 * Two endpoints signaling to each other through a relay that neither loses nor reorders. Each side
 * is seen through its one slot for the other; a session may fail or time out at any moment, and a
 * signal that finds no session starts an answerer.
 */
module TwoParty {
  import opened Types
  import opened Signals
  import opened Endpoint

  // --- one side -------------------------------------------------------------------------------

  /** A side's slot for its peer: free, or held by a session with its unread signals. */
  datatype End = Idle | Busy(role: Role, sent: seq<Signal>, got: seq<Payload>, inbox: seq<Payload>)

  datatype EndStep = Claim | Say(signal: Signal) | Hear | GiveUp | Conclude | File(payload: Payload)

  predicate EndEnabled(e: End, step: EndStep) {
    match step
    case Claim => e.Idle?
    case Say(signal) => e.Busy? && MayPublish(e.role, e.sent, e.got, signal)
    case Hear => e.Busy? && MayRead(e.role, e.sent, e.got) && e.inbox != []
    case GiveUp => e.Busy?
    case Conclude => e.Busy? && Concluded(e.role, e.sent, e.got)
    case File(_) => true
  }

  function EndAfter(e: End, step: EndStep): End
    requires EndEnabled(e, step)
  {
    match step
    case Claim => Busy(Offerer, [], [], [])
    case Say(signal) => e.(sent := e.sent + [signal])
    case Hear => e.(got := e.got + [e.inbox[0]], inbox := e.inbox[1..])
    case GiveUp => Idle
    case Conclude => Idle
    case File(payload) =>
      if e.Idle? then Busy(Answerer, [], [], [payload])
      else if |e.inbox| < INBOX_CAP then e.(inbox := e.inbox + [payload])
      else e
  }

  // --- both sides -----------------------------------------------------------------------------

  /**
   * One side with what it has on the way to the other. History: `log` is everything its sessions
   * ever published, `from` the place in the peer's log where its session came in, `lost` whether
   * that session's inbox ever overflowed, `wins` the channels its sessions registered.
   */
  datatype Side = Side(end: End, flight: seq<Signal>, log: seq<Signal>, from: nat, lost: bool, wins: nat)

  const Fresh := Side(Idle, [], [], 0, false, 0)

  type Pair = p: seq<Side> | |p| == 2 witness [Fresh, Fresh]

  /** Side `i` acts on its own, or takes the next signal on its way to it. */
  datatype PairStep = Act(i: nat, step: EndStep) | Deliver(i: nat)

  predicate PairEnabled(p: Pair, s: PairStep) {
    && s.i < 2
    && match s
       case Act(i, step) => !step.File? && EndEnabled(p[i].end, step)
       case Deliver(i) => p[1 - i].flight != []
  }

  /** How much of its log a side's signals have arrived. */
  function Arrived(s: Side): int {
    |s.log| - |s.flight|
  }

  function ActOn(s: Side, peer: Side, step: EndStep): Side
    requires EndEnabled(s.end, step)
  {
    var end := EndAfter(s.end, step);
    match step
    case Claim => s.(end := end, from := if Arrived(peer) < 0 then 0 else Arrived(peer), lost := false)
    case Say(signal) => s.(end := end, flight := s.flight + [signal], log := s.log + [signal])
    case Conclude => s.(end := end, wins := s.wins + 1)
    case _ => s.(end := end)
  }

  function Take(s: Side, peer: Side): Side
    requires peer.flight != []
  {
    var end := EndAfter(s.end, File(Some(peer.flight[0])));
    if s.end.Idle? then s.(end := end, from := if Arrived(peer) < 0 then 0 else Arrived(peer), lost := false)
    else s.(end := end, lost := s.lost || |s.end.inbox| >= INBOX_CAP)
  }

  function PairAfter(p: Pair, s: PairStep): Pair
    requires PairEnabled(p, s)
  {
    match s
    case Act(i, step) => p[i := ActOn(p[i], p[1 - i], step)]
    case Deliver(i) =>
      p[i := Take(p[i], p[1 - i])][1 - i := p[1 - i].(flight := p[1 - i].flight[1..])]
  }

  predicate PairRun(p: Pair, steps: seq<PairStep>)
    decreases |steps|
  {
    steps == [] || (PairEnabled(p, steps[0]) && PairRun(PairAfter(p, steps[0]), steps[1..]))
  }

  function PairEnd(p: Pair, steps: seq<PairStep>): Pair
    requires PairRun(p, steps)
    decreases |steps|
  {
    if steps == [] then p else PairEnd(PairAfter(p, steps[0]), steps[1..])
  }

  const Start: Pair := [Fresh, Fresh]

  // --- every run ------------------------------------------------------------------------------

  predicate Opening(signal: Signal) {
    signal.Offer? || signal.Answer?
  }

  /** Signal `k` of a log opens a session's script or continues the one before it. */
  predicate Linked(log: seq<Signal>, k: nat)
    requires k < |log|
  {
    match log[k]
    case Candidate(_) => k > 0 && (Opening(log[k - 1]) || log[k - 1].Candidate?)
    case EndOfCandidates => k > 0 && (Opening(log[k - 1]) || log[k - 1].Candidate?)
    case Done => k > 0 && log[k - 1].EndOfCandidates?
    case _ => true
  }

  predicate Chained(log: seq<Signal>) {
    forall k :: 0 <= k < |log| ==> Linked(log, k)
  }

  predicate Tail(flight: seq<Signal>, log: seq<Signal>) {
    |flight| <= |log| && flight == log[|log| - |flight|..]
  }

  predicate WroteLast(e: End, log: seq<Signal>) {
    e.Busy? && e.sent != [] ==> log != [] && log[|log| - 1] == e.sent[|e.sent| - 1]
  }

  /** A log is a row of scripts; what is in flight is its tail; a live session wrote its last entry. */
  predicate LogInv(s: Side) {
    Chained(s.log) && Tail(s.flight, s.log) && WroteLast(s.end, s.log)
  }

  /** `xs` is the stretch of `log` from `from` up to `to`. */
  predicate Stretch(xs: seq<Payload>, log: seq<Signal>, from: nat, to: int) {
    && from + |xs| == to <= |log|
    && forall k :: 0 <= k < |xs| ==> xs[k] == Some(log[from + k])
  }

  /** A session that lost nothing was given a contiguous stretch of its peer's log, in order. */
  predicate StretchInv(s: Side, peer: Side) {
    s.end.Busy? && !s.lost ==> Stretch(s.end.got + s.end.inbox, peer.log, s.from, Arrived(peer))
  }

  /** An answerer that has spoken heard an offer first. */
  predicate OrderInv(e: End) {
    && (e.Busy? ==> |e.inbox| <= INBOX_CAP)
    && (e.Busy? && e.role.Answerer? && e.sent != [] ==> Heard(e.got) != [] && Heard(e.got)[0].Offer?)
  }

  predicate SideInv(s: Side, peer: Side) {
    LogInv(s) && LogInv(peer) && StretchInv(s, peer) && OrderInv(s.end)
  }

  predicate PairInv(p: Pair) {
    SideInv(p[0], p[1]) && SideInv(p[1], p[0])
  }

  lemma SayKeepsLog(s: Side, signal: Signal)
    requires LogInv(s) && s.end.Busy? && MayPublish(s.end.role, s.end.sent, s.end.got, signal)
    ensures LogInv(ActOn(s, s, Say(signal)))
  {
    var log := s.log + [signal];
    forall k | 0 <= k < |log| ensures Linked(log, k) {
      assert k < |s.log| ==> Linked(s.log, k);
    }
  }

  lemma HearKeepsOrder(e: End)
    requires OrderInv(e) && EndEnabled(e, Hear)
    ensures OrderInv(EndAfter(e, Hear))
    ensures EndAfter(e, Hear).got + EndAfter(e, Hear).inbox == e.got + e.inbox
  {
    HeardAppends(e.got, e.inbox[0]);
  }

  lemma ActKeepsOwn(s: Side, peer: Side, step: EndStep)
    requires SideInv(s, peer) && !step.File? && EndEnabled(s.end, step)
    ensures SideInv(ActOn(s, peer, step), peer)
  {
    match step {
      case Say(signal) => SayKeepsLog(s, signal);
      case Hear => HearKeepsOrder(s.end);
      case _ =>
    }
  }

  lemma ActKeepsPeers(s: Side, peer: Side, step: EndStep)
    requires StretchInv(peer, s) && !step.File? && EndEnabled(s.end, step)
    ensures StretchInv(peer, ActOn(s, peer, step))
  {
  }

  lemma TakeKeepsStretch(s: Side, peer: Side)
    requires StretchInv(s, peer) && LogInv(peer) && peer.flight != []
    ensures StretchInv(Take(s, peer), peer.(flight := peer.flight[1..]))
  {
    assert peer.flight[0] == peer.log[Arrived(peer)];
    var s' := Take(s, peer);
    if s.end.Busy? && !s'.lost {
      assert s'.end.got + s'.end.inbox == (s.end.got + s.end.inbox) + [Some(peer.flight[0])];
    }
  }

  lemma FlyingKeepsLog(s: Side)
    requires LogInv(s) && s.flight != []
    ensures LogInv(s.(flight := s.flight[1..]))
  {
  }

  lemma TakeKeepsLog(s: Side, peer: Side)
    requires LogInv(s) && peer.flight != []
    ensures LogInv(Take(s, peer)) && Take(s, peer).log == s.log && Take(s, peer).flight == s.flight
  {
  }

  lemma FileKeepsOrder(e: End, x: Payload)
    requires OrderInv(e)
    ensures OrderInv(EndAfter(e, File(x)))
  {
  }

  lemma ActKeeps(s: Side, peer: Side, step: EndStep)
    requires SideInv(s, peer) && SideInv(peer, s) && !step.File? && EndEnabled(s.end, step)
    ensures SideInv(ActOn(s, peer, step), peer) && SideInv(peer, ActOn(s, peer, step))
  {
    ActKeepsOwn(s, peer, step);
    ActKeepsPeers(s, peer, step);
  }

  lemma TakeKeeps(s: Side, peer: Side)
    requires SideInv(s, peer) && SideInv(peer, s) && peer.flight != []
    ensures var s', peer' := Take(s, peer), peer.(flight := peer.flight[1..]);
            SideInv(s', peer') && SideInv(peer', s')
  {
    TakeKeepsStretch(s, peer);
    TakeKeepsLog(s, peer);
    FileKeepsOrder(s.end, Some(peer.flight[0]));
    FlyingKeepsLog(peer);
  }

  lemma StepKeepsPair(p: Pair, s: PairStep)
    requires PairInv(p) && PairEnabled(p, s)
    ensures PairInv(PairAfter(p, s))
  {
    match s {
      case Act(i, step) => ActKeeps(p[i], p[1 - i], step);
      case Deliver(i) => TakeKeeps(p[i], p[1 - i]);
    }
  }

  lemma {:induction false} RunKeepsPair(p: Pair, steps: seq<PairStep>)
    requires PairInv(p) && PairRun(p, steps)
    ensures PairInv(PairEnd(p, steps))
    decreases |steps|
  {
    if steps != [] {
      StepKeepsPair(p, steps[0]);
      RunKeepsPair(PairAfter(p, steps[0]), steps[1..]);
    }
  }
}
