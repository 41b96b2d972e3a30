/** The host shim: arrival promises that are replaced at each arrival, and the polls parked on them. */
module ShimWake {
  import opened Types

  // --- one queue, as the shim keeps it ----------------------------------------------------------

  class Promise {
    var resolved: bool

    constructor ()
      ensures !resolved
    {
      resolved := false;
    }
  }

  /** The shape shared by the synthetic socket and the event source: a queue and its arrival promise. */
  class Arrivals {
    var queue: seq<Bytes>
    var promise: Promise
    /** Whether the socket is bound; the event source always is. */
    var bound: bool
    ghost var awaited: set<Promise>
    ghost var injected: seq<Bytes>
    ghost var taken: seq<Bytes>

    /**
     * Nothing is lost, and no promise that was handed out to a waiter is left unresolved while the
     * queue holds something, although each arrival replaces the promise.
     */
    ghost predicate Valid()
      reads this, promise, awaited
    {
      && !promise.resolved
      && injected == taken + queue
      && forall p :: p in awaited ==> p.resolved || (p == promise && queue == [])
    }

    constructor (bound: bool)
      ensures Valid() && queue == [] && awaited == {} && fresh(promise) && this.bound == bound
    {
      this.bound := bound;
      queue, injected, taken, awaited := [], [], [], {};
      promise := new Promise();
    }

    /** `injectDatagram`, `injectSource`: queue it, resolve the current promise, arm a new one. */
    method Inject(data: Bytes) returns (ok: bool)
      requires Valid()
      modifies this`queue, this`promise, this`injected, promise
      ensures Valid() && ok == bound
      ensures ok ==> queue == old(queue) + [data] && injected == old(injected) + [data]
      ensures ok ==> old(promise).resolved && fresh(promise)
      ensures !ok ==> queue == old(queue) && injected == old(injected) && promise == old(promise)
    {
      if !bound {
        return false;
      }
      ok := true;
      queue, injected := queue + [data], injected + [data];
      promise.resolved := true;
      promise := new Promise();
    }

    method FinishBind()
      requires Valid()
      modifies this`bound
      ensures Valid() && bound
    {
      bound := true;
    }

    /** `receive` takes up to `n`; `drain` takes everything. */
    method Take(n: nat) returns (r: seq<Bytes>)
      requires Valid()
      modifies this`queue, this`taken
      ensures Valid() && r + queue == old(queue) && |r| == (if n < |old(queue)| then n else |old(queue)|)
      ensures taken == old(taken) + r
    {
      var k := if n < |queue| then n else |queue|;
      r := queue[..k];
      assert taken + queue == (taken + r) + queue[k..];
      queue, taken := queue[k..], taken + r;
    }

    /** The promise a poll that found the queue empty waits on. */
    method WaitPromise() returns (p: Promise)
      requires Valid() && queue == []
      modifies this`awaited
      ensures Valid() && p == promise && p in awaited && old(awaited) <= awaited
    {
      p := promise;
      awaited := awaited + {p};
    }
  }

  // --- all of the shim, over every interleaving ---------------------------------------------------

  /** A pollable: readiness of a queue, a timer, or a constant. */
  datatype Pollable = OnQueue(k: nat) | Timer(deadline: nat) | ReadyAlways | ReadyNever

  /** A queue with the number of its current arrival promise. */
  datatype Feed = Feed(queue: seq<Bytes>, promise: nat)

  /** A poll parked in `Promise.race`: its list and the promises it raced. */
  datatype Park = Park(list: seq<Pollable>, waits: seq<nat>)

  /** A poll that returned, and when. */
  datatype Answer = Answer(id: nat, list: seq<Pollable>, ready: seq<nat>, at: nat)

  datatype Shim = Shim(
    feeds: seq<Feed>,
    now: nat,
    nextPromise: nat,
    resolved: set<nat>,
    timers: set<nat>,
    parked: map<nat, Park>,
    answers: seq<Answer>)

  datatype ShimStep =
    | Arrive(k: nat, data: Bytes)
    | Remove(k: nat, n: nat)
    | StartPoll(id: nat, list: seq<Pollable>)
    | Resume(id: nat)
    | Fire(promise: nat)
    | Pass(ns: nat)

  predicate IsReady(s: Shim, p: Pollable) {
    match p
    case OnQueue(k) => k < |s.feeds| && s.feeds[k].queue != []
    case Timer(deadline) => s.now >= deadline
    case ReadyAlways => true
    case ReadyNever => false
  }

  predicate ListOk(s: Shim, list: seq<Pollable>) {
    forall i :: 0 <= i < |list| && list[i].OnQueue? ==> list[i].k < |s.feeds|
  }

  /** The loop at the head of `pollList`: the indices ready now, all of them, in order. */
  method ReadyIndices(s: Shim, list: seq<Pollable>) returns (ready: seq<nat>)
    ensures ready == ReadyIn(s, list)
    ensures forall i :: i in ready <==> 0 <= i < |list| && IsReady(s, list[i])
    ensures forall i, j :: 0 <= i < j < |ready| ==> ready[i] < ready[j]
  {
    ready := [];
    assert list[..0] == [];
    for i := 0 to |list|
      invariant ready == ReadyIn(s, list[..i])
      invariant forall j :: j in ready <==> 0 <= j < i && IsReady(s, list[j])
      invariant forall a, b :: 0 <= a < b < |ready| ==> ready[a] < ready[b]
    {
      assert list[..i + 1][..i] == list[..i];
      assert forall a :: 0 <= a < |ready| ==> ready[a] in ready;
      if IsReady(s, list[i]) {
        ready := ready + [i];
      }
    }
    assert list[..|list|] == list;
  }

  function ReadyIn(s: Shim, list: seq<Pollable>): seq<nat> {
    if list == [] then []
    else ReadyIn(s, list[..|list| - 1]) + if IsReady(s, list[|list| - 1]) then [|list| - 1] else []
  }

  lemma {:induction false} ReadyInIsExact(s: Shim, list: seq<Pollable>)
    ensures forall i :: i in ReadyIn(s, list) <==> 0 <= i < |list| && IsReady(s, list[i])
  {
    if list != [] {
      ReadyInIsExact(s, list[..|list| - 1]);
    }
  }

  /** The promise entry `i` is awaited through: a queue's own, or a new one. */
  function WaitOn(s: Shim, list: seq<Pollable>, i: nat): nat
    requires i < |list|
  {
    if list[i].OnQueue? && list[i].k < |s.feeds| then s.feeds[list[i].k].promise else s.nextPromise + i
  }

  /** One pass of the loop in `pollList`: return what is ready, or race the promises. */
  function Check(s: Shim, id: nat, list: seq<Pollable>): Shim {
    if ReadyIn(s, list) != [] then
      s.(parked := s.parked - {id}, answers := s.answers + [Answer(id, list, ReadyIn(s, list), s.now)])
    else
      s.(parked := s.parked[id := Park(list, seq(|list|, i requires 0 <= i < |list| => WaitOn(s, list, i)))],
         timers := s.timers + set i: nat | i < |list| && list[i].Timer? :: s.nextPromise + i,
         nextPromise := s.nextPromise + |list|)
  }

  predicate Woken(s: Shim, park: Park) {
    exists p :: p in park.waits && p in s.resolved
  }

  predicate ShimEnabled(s: Shim, step: ShimStep) {
    match step
    case Arrive(k, _) => k < |s.feeds|
    case Remove(k, _) => k < |s.feeds|
    case StartPoll(id, list) => id !in s.parked && ListOk(s, list)
    case Resume(id) => id in s.parked && Woken(s, s.parked[id])
    case Fire(p) => p in s.timers
    case Pass(_) => true
  }

  function ShimAfter(s: Shim, step: ShimStep): Shim
    requires ShimEnabled(s, step)
  {
    match step
    case Arrive(k, data) =>
      s.(feeds := s.feeds[k := Feed(s.feeds[k].queue + [data], s.nextPromise)],
         resolved := s.resolved + {s.feeds[k].promise},
         nextPromise := s.nextPromise + 1)
    case Remove(k, n) =>
      var q := s.feeds[k].queue;
      s.(feeds := s.feeds[k := Feed(if n < |q| then q[n..] else [], s.feeds[k].promise)])
    case StartPoll(id, list) => Check(s, id, list)
    case Resume(id) => Check(s, id, s.parked[id].list)
    case Fire(p) => s.(resolved := s.resolved + {p})
    case Pass(ns) => s.(now := s.now + ns)
  }

  predicate ShimRun(s: Shim, steps: seq<ShimStep>)
    decreases |steps|
  {
    steps == [] || (ShimEnabled(s, steps[0]) && ShimRun(ShimAfter(s, steps[0]), steps[1..]))
  }

  function ShimEnd(s: Shim, steps: seq<ShimStep>): Shim
    requires ShimRun(s, steps)
    decreases |steps|
  {
    if steps == [] then s else ShimEnd(ShimAfter(s, steps[0]), steps[1..])
  }

  /** A new shim with `n` queues. */
  function NewShim(n: nat): Shim {
    Shim(seq(n, i requires 0 <= i < n => Feed([], i)), 0, n, {}, {}, map[], [])
  }

  /** An entry of a parked poll is quiet on a promise that is still current, or its promise resolved. */
  predicate EntryParked(s: Shim, p: Pollable, wait: nat) {
    match p
    case OnQueue(k) => k < |s.feeds| && (wait in s.resolved || (s.feeds[k].queue == [] && s.feeds[k].promise == wait))
    case Timer(_) => wait in s.timers
    case ReadyAlways => false
    case ReadyNever => true
  }

  predicate ParkInv(s: Shim, park: Park) {
    |park.waits| == |park.list| && forall i :: 0 <= i < |park.list| ==> EntryParked(s, park.list[i], park.waits[i])
  }

  /** An answer names something, constants for what they are, and no timer before its time. */
  predicate AnswerInv(a: Answer) {
    && a.ready != []
    && (forall i :: i in a.ready ==> i < |a.list| && a.list[i] != ReadyNever)
    && (forall i :: 0 <= i < |a.list| && a.list[i].Timer? ==> (i in a.ready <==> a.list[i].deadline <= a.at))
    && (forall i :: 0 <= i < |a.list| && a.list[i] == ReadyAlways ==> i in a.ready)
  }

  /** Current arrival promises are pending, each its own queue's, and promises are never reused. */
  predicate PromiseInv(s: Shim) {
    && (forall p :: p in s.resolved + s.timers ==> p < s.nextPromise)
    && (forall k :: 0 <= k < |s.feeds| ==>
          && s.feeds[k].promise < s.nextPromise
          && s.feeds[k].promise !in s.resolved
          && s.feeds[k].promise !in s.timers)
    && (forall j, k :: 0 <= j < k < |s.feeds| ==> s.feeds[j].promise != s.feeds[k].promise)
  }

  predicate ShimInv(s: Shim) {
    && (forall id :: id in s.parked ==> ParkInv(s, s.parked[id]))
    && (forall k :: 0 <= k < |s.answers| ==> AnswerInv(s.answers[k]))
  }

  lemma CheckKeeps(s: Shim, id: nat, list: seq<Pollable>)
    requires ShimInv(s) && ListOk(s, list)
    ensures ShimInv(Check(s, id, list))
  {
    ReadyInIsExact(s, list);
    var s' := Check(s, id, list);
    forall j | j in s'.parked ensures ParkInv(s', s'.parked[j]) {
      if j in s.parked && (j != id || s'.parked[j] == s.parked[j]) {
        assert ParkInv(s, s.parked[j]);
        assert forall i :: 0 <= i < |s.parked[j].list| ==> EntryParked(s, s.parked[j].list[i], s.parked[j].waits[i]);
      } else {
        forall i | 0 <= i < |list| ensures EntryParked(s', list[i], s'.parked[j].waits[i]) {
          assert !IsReady(s, list[i]);
        }
      }
    }
  }

  lemma EntryStaysParked(s: Shim, step: ShimStep, p: Pollable, wait: nat)
    requires ShimEnabled(s, step) && EntryParked(s, p, wait) && !step.StartPoll? && !step.Resume?
    ensures EntryParked(ShimAfter(s, step), p, wait)
  {
  }

  lemma ShimStepKeeps(s: Shim, step: ShimStep)
    requires ShimInv(s) && ShimEnabled(s, step)
    ensures ShimInv(ShimAfter(s, step))
  {
    if step.StartPoll? {
      CheckKeeps(s, step.id, step.list);
    } else if step.Resume? {
      assert ParkInv(s, s.parked[step.id]);
      var list, waits := s.parked[step.id].list, s.parked[step.id].waits;
      assert forall i :: 0 <= i < |list| ==> EntryParked(s, list[i], waits[i]);
      CheckKeeps(s, step.id, list);
    } else {
      var s' := ShimAfter(s, step);
      forall id | id in s'.parked ensures ParkInv(s', s'.parked[id]) {
        var park := s.parked[id];
        assert ParkInv(s, park);
        forall i | 0 <= i < |park.list| ensures EntryParked(s', park.list[i], park.waits[i]) {
          EntryStaysParked(s, step, park.list[i], park.waits[i]);
        }
      }
    }
  }

  lemma ShimStepKeepsPromises(s: Shim, step: ShimStep)
    requires PromiseInv(s) && ShimEnabled(s, step)
    ensures PromiseInv(ShimAfter(s, step))
  {
  }

  lemma {:induction false} ShimRunKeeps(s: Shim, steps: seq<ShimStep>)
    requires ShimInv(s) && PromiseInv(s) && ShimRun(s, steps)
    ensures ShimInv(ShimEnd(s, steps)) && PromiseInv(ShimEnd(s, steps))
    decreases |steps|
  {
    if steps != [] {
      ShimStepKeeps(s, steps[0]);
      ShimStepKeepsPromises(s, steps[0]);
      ShimRunKeeps(ShimAfter(s, steps[0]), steps[1..]);
    }
  }

  /**
   * No lost wakeup: in every run, a parked poll one of whose queues is not empty waits on a promise
   * that has already resolved, and when it resumes it returns that entry among the ready ones.
   */
  lemma NoLostWakeup(n: nat, steps: seq<ShimStep>, id: nat, i: nat)
    requires ShimRun(NewShim(n), steps)
    requires var s := ShimEnd(NewShim(n), steps);
             && id in s.parked && i < |s.parked[id].list|
             && s.parked[id].list[i].OnQueue? && IsReady(s, s.parked[id].list[i])
    ensures var s := ShimEnd(NewShim(n), steps);
            && i < |s.parked[id].waits| && s.parked[id].waits[i] in s.resolved
            && ShimEnabled(s, Resume(id))
            && var s' := ShimAfter(s, Resume(id));
               id !in s'.parked && |s'.answers| == |s.answers| + 1 && i in s'.answers[|s.answers|].ready
  {
    ShimRunKeeps(NewShim(n), steps);
    var s := ShimEnd(NewShim(n), steps);
    var park := s.parked[id];
    assert ParkInv(s, park);
    assert EntryParked(s, park.list[i], park.waits[i]);
    assert park.waits[i] in park.waits;
    ReadyInIsExact(s, park.list);
  }

  // --- queues -----------------------------------------------------------------------------------------

  function ArrivedBy(step: ShimStep, k: nat): seq<Bytes> {
    if step.Arrive? && step.k == k then [step.data] else []
  }

  function TakenBy(s: Shim, step: ShimStep, k: nat): seq<Bytes>
    requires k < |s.feeds|
  {
    if step.Remove? && step.k == k
    then (if step.n < |s.feeds[k].queue| then s.feeds[k].queue[..step.n] else s.feeds[k].queue)
    else []
  }

  /** What is taken comes from the front, what arrives goes to the back, and nothing else moves. */
  lemma StepKeepsQueue(s: Shim, step: ShimStep, k: nat)
    requires ShimEnabled(s, step) && k < |s.feeds|
    ensures var s' := ShimAfter(s, step);
            && k < |s'.feeds|
            && TakenBy(s, step, k) + s'.feeds[k].queue == s.feeds[k].queue + ArrivedBy(step, k)
  {
  }

  /** In every run, every poll that returned named exactly the timers whose time had come. */
  lemma TimersAreOnTime(n: nat, steps: seq<ShimStep>, k: nat, i: nat)
    requires ShimRun(NewShim(n), steps) && k < |ShimEnd(NewShim(n), steps).answers|
    requires var a := ShimEnd(NewShim(n), steps).answers[k]; i < |a.list| && a.list[i].Timer?
    ensures var a := ShimEnd(NewShim(n), steps).answers[k]; i in a.ready <==> a.list[i].deadline <= a.at
  {
    ShimRunKeeps(NewShim(n), steps);
    assert AnswerInv(ShimEnd(NewShim(n), steps).answers[k]);
  }

  /** A parked poll whose timer fires when it is due resumes and returns that entry. */
  lemma DueTimerResumes(n: nat, steps: seq<ShimStep>, id: nat, i: nat)
    requires ShimRun(NewShim(n), steps)
    requires var s := ShimEnd(NewShim(n), steps);
             && id in s.parked && i < |s.parked[id].list|
             && s.parked[id].list[i].Timer? && s.parked[id].list[i].deadline <= s.now
    ensures var s := ShimEnd(NewShim(n), steps);
            && i < |s.parked[id].waits| && ShimEnabled(s, Fire(s.parked[id].waits[i]))
            && var s1 := ShimAfter(s, Fire(s.parked[id].waits[i]));
               && ShimEnabled(s1, Resume(id))
               && var s2 := ShimAfter(s1, Resume(id));
                  id !in s2.parked && |s2.answers| == |s.answers| + 1 && i in s2.answers[|s.answers|].ready
  {
    ShimRunKeeps(NewShim(n), steps);
    var s := ShimEnd(NewShim(n), steps);
    var park := s.parked[id];
    assert ParkInv(s, park) && EntryParked(s, park.list[i], park.waits[i]);
    var s1 := ShimAfter(s, Fire(park.waits[i]));
    assert park.waits[i] in park.waits && park.waits[i] in s1.resolved;
    ReadyInIsExact(s1, park.list);
  }

  lemma CheckSleeps(s: Shim, id: nat, list: seq<Pollable>)
    requires PromiseInv(s) && ReadyIn(s, list) == [] && ListOk(s, list)
    ensures id in Check(s, id, list).parked && !Woken(Check(s, id, list), Check(s, id, list).parked[id])
  {
    var s' := Check(s, id, list);
    forall p | p in s'.parked[id].waits ensures p !in s'.resolved {
      var i :| 0 <= i < |list| && s'.parked[id].waits[i] == p;
      assert p == WaitOn(s, list, i);
    }
  }

  /**
   * A poll with something ready returns exactly that at once; any other parks, and really sleeps:
   * only a later arrival or timer can resume it.
   */
  lemma ParkedPollsSleep(n: nat, steps: seq<ShimStep>, id: nat, list: seq<Pollable>)
    requires ShimRun(NewShim(n), steps) && ShimEnabled(ShimEnd(NewShim(n), steps), StartPoll(id, list))
    ensures var s0 := ShimEnd(NewShim(n), steps); var s := ShimAfter(s0, StartPoll(id, list));
            if exists i :: 0 <= i < |list| && IsReady(s0, list[i]) then
              && id !in s.parked && |s.answers| == |s0.answers| + 1
              && forall i :: 0 <= i < |list| ==> (i in s.answers[|s0.answers|].ready <==> IsReady(s0, list[i]))
            else id in s.parked && s.parked[id].list == list && !Woken(s, s.parked[id])
  {
    ShimRunKeeps(NewShim(n), steps);
    var s := ShimEnd(NewShim(n), steps);
    ReadyInIsExact(s, list);
    assert ReadyIn(s, list) != [] ==> ReadyIn(s, list)[0] in ReadyIn(s, list);
    if ReadyIn(s, list) == [] {
      CheckSleeps(s, id, list);
    }
  }
}
