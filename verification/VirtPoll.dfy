/** The poll virtualization: many guest pollables over one suspending host call. */
module VirtPoll {
  import opened Types

  const U32: nat := 0x1_0000_0000
  const U64: nat := 0x1_0000_0000_0000_0000

  datatype Incoming = Incoming(payload: Bytes, port: nat)

  /** What a guest pollable stands for; sockets are numbered. */
  datatype VPollable = Host(id: nat) | UdpIncoming(socket: nat) | AlwaysReady | Never

  /** A host pollable: a passthrough one, or the event source's. */
  datatype HostRef = Passthrough(id: nat) | Source

  /**
   * What ends one host `poll`: datagrams that arrived meanwhile, the passthrough pollables that are
   * ready, and the indices it returns.
   */
  datatype Wake = Wake(arrived: seq<Incoming>, ready: set<nat>, fired: seq<nat>)

  datatype PollResult = Ready(indices: seq<nat>) | Suspended | Panic

  /** One batch taken from the source by one socket. */
  datatype Batch = Batch(socket: nat, items: seq<Incoming>)

  function Items(log: seq<Batch>): seq<Incoming> {
    if log == [] then [] else Items(log[..|log| - 1]) + log[|log| - 1].items
  }

  function ItemsOf(log: seq<Batch>, k: nat): seq<Incoming> {
    if log == [] then []
    else ItemsOf(log[..|log| - 1], k) + if log[|log| - 1].socket == k then log[|log| - 1].items else []
  }

  lemma BatchAdds(log: seq<Batch>, b: Batch, k: nat)
    ensures Items(log + [b]) == Items(log) + b.items
    ensures ItemsOf(log + [b], k) == ItemsOf(log, k) + if b.socket == k then b.items else []
  {
    assert (log + [b])[..|log|] == log;
  }

  /** Each socket's share of the batches was received or is queued, in order. */
  predicate Shared(log: seq<Batch>, received: seq<seq<Incoming>>, queues: seq<seq<Incoming>>) {
    && |received| == |queues|
    && (forall i :: 0 <= i < |log| ==> log[i].socket < |queues|)
    && (forall k :: 0 <= k < |queues| ==> ItemsOf(log, k) == received[k] + queues[k])
  }

  lemma DrainKeepsShares(log: seq<Batch>, received: seq<seq<Incoming>>, queues: seq<seq<Incoming>>, b: Batch)
    requires Shared(log, received, queues) && b.socket < |queues|
    ensures Shared(log + [b], received, queues[b.socket := queues[b.socket] + b.items])
    ensures Items(log + [b]) == Items(log) + b.items
  {
    var queues' := queues[b.socket := queues[b.socket] + b.items];
    forall k | 0 <= k < |queues| ensures ItemsOf(log + [b], k) == received[k] + queues'[k] {
      BatchAdds(log, b, k);
    }
    BatchAdds(log, b, 0);
  }

  /** All that arrived was drained or waits in the source; all that was drained is accounted for. */
  predicate Conserved(arrived: seq<Incoming>, source: seq<Incoming>, log: seq<Batch>,
                      received: seq<seq<Incoming>>, queues: seq<seq<Incoming>>)
  {
    arrived == Items(log) + source && Shared(log, received, queues)
  }

  lemma DrainKeepsAll(arrived: seq<Incoming>, log: seq<Batch>, received: seq<seq<Incoming>>,
                      queues: seq<seq<Incoming>>, k: nat, source: seq<Incoming>)
    requires Conserved(arrived, source, log, received, queues) && k < |queues|
    ensures Conserved(arrived, [], log + [Batch(k, source)], received, queues[k := queues[k] + source])
  {
    DrainKeepsShares(log, received, queues, Batch(k, source));
  }

  /** Whether a lawful host may return index `i`: the source's pollable is level-triggered. */
  predicate MayFire(refs: seq<HostRef>, i: nat, ready: set<nat>, source: seq<Incoming>, level: bool) {
    && i < |refs|
    && match refs[i]
       case Passthrough(id) => id in ready
       case Source => level ==> source != []
  }

  /** Whether a lawful host returns with this wake: it names something, and only what is ready. */
  predicate Returns(refs: seq<HostRef>, w: Wake, source: seq<Incoming>, level: bool) {
    && w.fired != []
    && forall h :: 0 <= h < |w.fired| ==> MayFire(refs, w.fired[h], w.ready, source + w.arrived, level)
  }

  /** The layer's sockets and the host beneath it, whose behaviour is the list `wakes`. */
  class Virt {
    const wakes: seq<Wake>
    const level: bool
    var queues: seq<seq<Incoming>>
    var source: seq<Incoming>
    var hostReady: set<nat>
    var waits: nat
    ghost var asked: nat
    ghost var arrived: seq<Incoming>
    ghost var log: seq<Batch>
    ghost var received: seq<seq<Incoming>>

    ghost predicate Valid()
      reads this
    {
      waits <= |wakes| && Conserved(arrived, source, log, received, queues)
    }

    constructor (sockets: nat, wakes: seq<Wake>, level: bool)
      ensures Valid() && |queues| == sockets && arrived == []
    {
      this.wakes, this.level := wakes, level;
      queues, received := seq(sockets, _ => []), seq(sockets, _ => []);
      source, hostReady, waits, asked, arrived, log := [], {}, 0, 0, [], [];
    }

    predicate IsReady(v: VPollable)
      reads this
    {
      match v
      case AlwaysReady => true
      case Never => false
      case UdpIncoming(k) => k < |queues| && queues[k] != []
      case Host(id) => id in hostReady
    }

    predicate InPlace(v: VPollable)
      reads this
    {
      v.UdpIncoming? ==> v.socket < |queues|
    }

    /** `Shared::drain`. */
    method Drain(k: nat)
      requires Valid() && k < |queues|
      modifies this`queues, this`source, this`log
      ensures Valid() && source == []
      ensures queues == old(queues)[k := old(queues[k]) + old(source)]
    {
      ghost var log' := log + [Batch(k, source)];
      var q := queues[k := queues[k] + source];
      DrainKeepsAll(arrived, log, received, queues, k, source);
      queues, source, log := q, [], log';
    }

    /** `Shared::has_data`: looks at the source only when the queue is empty. */
    method HasData(k: nat) returns (yes: bool)
      requires Valid() && k < |queues|
      modifies this`queues, this`source, this`log
      ensures Valid() && |queues| == old(|queues|)
      ensures yes == (queues[k] != []) == (old(queues[k]) != [] || old(source) != [])
      ensures yes || source == []
      ensures forall j :: 0 <= j < |queues| && j != k ==> queues[j] == old(queues[j])
      ensures old(queues[k]) <= queues[k]
      ensures old(source) == [] ==> source == [] && queues == old(queues)
    {
      if queues[k] == [] {
        Drain(k);
      }
      yes := queues[k] != [];
    }

    /** Whether a fired entry is ready after all; what was ready stays so. */
    method ReadyNow(v: VPollable) returns (yes: bool)
      requires Valid() && InPlace(v) && (v.UdpIncoming? || (v.Host? && v.id in hostReady))
      modifies this`queues, this`source, this`log
      ensures Valid() && |queues| == old(|queues|) && yes == IsReady(v)
      ensures forall u :: old(IsReady(u)) ==> IsReady(u)
      ensures old(source) == [] ==> source == [] && queues == old(queues)
      ensures v.Host? || old(source) != [] ==> yes
      ensures yes || source == []
    {
      if v.UdpIncoming? {
        yes := HasData(v.socket);
      } else {
        yes := true;
      }
    }

    /** `IncomingDatagramStream::receive`, with `max` truncated to the 32-bit `usize`. */
    method Receive(k: nat, max: nat) returns (r: seq<Incoming>)
      requires Valid() && k < |queues| && max < U64
      modifies this`queues, this`source, this`log, this`received
      ensures Valid() && source == [] && |queues| == old(|queues|)
      ensures var waiting := old(queues[k]) + old(source);
              && r + queues[k] == waiting && |r| <= max
              && (|r| == (if max < |waiting| then max else |waiting|) <==> max < U32 || |waiting| <= max % U32)
      ensures queues == old(queues)[k := queues[k]]
      ensures received == old(received)[k := old(received[k]) + r]
    {
      Drain(k);
      var q := queues[k];
      var n := if max % U32 < |q| then max % U32 else |q|;
      r := q[..n];
      assert received[k] + q == (received[k] + r) + q[n..];
      queues := queues[k := q[n..]];
      received := received[k := received[k] + r];
    }

    /** The host's `poll`: it returns once something is ready, and then names only what is. */
    method HostPoll(refs: seq<HostRef>) returns (fired: Option<seq<nat>>)
      requires Valid()
      modifies this`source, this`hostReady, this`waits, this`arrived, this`asked
      ensures Valid() && waits <= old(waits) + 1 && asked == old(asked) + 1
      ensures fired.Some? <==> old(waits) < |wakes| && Returns(refs, wakes[old(waits)], old(source), level)
      ensures fired.Some? ==> waits == old(waits) + 1 && fired.value == wakes[old(waits)].fired != []
      ensures fired.Some? ==> hostReady == wakes[old(waits)].ready
      ensures fired.Some? ==>
                forall h :: 0 <= h < |fired.value| ==> MayFire(refs, fired.value[h], hostReady, source, level)
    {
      asked := asked + 1;
      if waits == |wakes| {
        return None;
      }
      var w := wakes[waits];
      fired := if Returns(refs, w, source, level) then Some(w.fired) else None;
      waits := waits + 1;
      hostReady := w.ready;
      source := source + w.arrived;
      arrived := arrived + w.arrived;
    }

    predicate ReadyLocally(v: VPollable)
      reads this
    {
      !v.Host? && IsReady(v)
    }

    /** Pass 1: the entries that are ready from local state alone, all of them and no others. */
    method LocalPass(list: seq<VPollable>) returns (ready: seq<nat>)
      requires Valid() && forall i :: 0 <= i < |list| ==> InPlace(list[i])
      modifies this`queues, this`source, this`log
      ensures Valid() && |queues| == old(|queues|)
      ensures forall i :: i in ready ==> i < |list|
      ensures forall i :: 0 <= i < |list| ==> (i in ready <==> ReadyLocally(list[i]))
    {
      ready := [];
      var n := |queues|;
      for i := 0 to |list|
        invariant Valid() && |queues| == n
        invariant forall j :: j in ready ==> j < i
        invariant forall j :: 0 <= j < i ==> (j in ready <==> ReadyLocally(list[j]))
        invariant forall j :: 0 <= j < i && list[j].UdpIncoming? && j !in ready ==> source == []
      {
        var yes := false;
        match list[i] {
          case AlwaysReady => yes := true;
          case UdpIncoming(k) => yes := HasData(k);
          case _ =>
        }
        if yes {
          ready := ready + [i];
        }
      }
    }
  }

  lemma {:induction false} OneSocketGetsAll(log: seq<Batch>)
    requires forall i :: 0 <= i < |log| ==> log[i].socket == 0
    ensures ItemsOf(log, 0) == Items(log)
  {
    if log != [] {
      OneSocketGetsAll(log[..|log| - 1]);
    }
  }

  /** With one socket, what arrived was received, is queued, or waits in the source, in that order. */
  lemma OneSocketInOrder(virt: Virt)
    requires virt.Valid() && |virt.queues| == 1
    ensures virt.arrived == virt.received[0] + virt.queues[0] + virt.source
  {
    OneSocketGetsAll(virt.log);
  }

  /** The host's counterpart of an entry that has one. */
  function RefOf(v: VPollable): HostRef
    requires v.Host? || v.UdpIncoming?
  {
    if v.Host? then Passthrough(v.id) else Source
  }

  /** `back` leads from each host pollable to the entry it was taken from. */
  predicate Mapped(list: seq<VPollable>, refs: seq<HostRef>, back: seq<nat>) {
    && |refs| == |back|
    && forall h :: 0 <= h < |back| ==>
         && back[h] < |list|
         && (list[back[h]].Host? || list[back[h]].UdpIncoming?)
         && refs[h] == RefOf(list[back[h]])
  }

  /** Pass 2, first half: the host pollables to wait on, and the way back to the entries. */
  method HostRefs(list: seq<VPollable>) returns (refs: seq<HostRef>, back: seq<nat>)
    requires forall i :: 0 <= i < |list| ==> !list[i].AlwaysReady?
    ensures Mapped(list, refs, back)
    ensures forall i :: 0 <= i < |list| ==> (i in back <==> !list[i].Never?)
  {
    refs, back := [], [];
    for i := 0 to |list|
      invariant Mapped(list, refs, back)
      invariant forall j :: j in back ==> j < i
      invariant forall j :: 0 <= j < i ==> (j in back <==> !list[j].Never?)
    {
      match list[i] {
        case Host(id) => refs, back := refs + [Passthrough(id)], back + [i];
        case UdpIncoming(_) => refs, back := refs + [Source], back + [i];
        case AlwaysReady => assert false;
        case Never =>
      }
    }
  }

  /** Pass 2, second half: the entries behind what fired, without sockets that turn out empty. */
  method FiredPass(virt: Virt, list: seq<VPollable>, refs: seq<HostRef>, back: seq<nat>, fired: seq<nat>)
    returns (ready: seq<nat>)
    requires virt.Valid() && forall i :: 0 <= i < |list| ==> virt.InPlace(list[i])
    requires Mapped(list, refs, back) && fired != [] && forall h :: 0 <= h < |fired| ==> fired[h] < |refs|
    requires forall h :: 0 <= h < |fired| ==> MayFire(refs, fired[h], virt.hostReady, virt.source, virt.level)
    modifies virt`queues, virt`source, virt`log
    ensures virt.Valid() && |virt.queues| == old(|virt.queues|)
    ensures forall i :: i in ready ==> i < |list| && virt.IsReady(list[i])
    ensures forall h :: 0 <= h < |fired| ==> (virt.IsReady(list[back[fired[h]]]) <==> back[fired[h]] in ready)
    ensures virt.level ==> ready != []
  {
    ready := [];
    var n := |virt.queues|;
    for h := 0 to |fired|
      invariant virt.Valid() && |virt.queues| == n
      invariant forall i :: i in ready ==> i < |list| && virt.IsReady(list[i])
      invariant if h == 0 then virt.source == old(virt.source) else virt.level ==> ready != []
      invariant forall j :: 0 <= j < h && back[fired[j]] !in ready ==>
                  virt.source == [] && !virt.IsReady(list[back[fired[j]]])
    {
      assert MayFire(refs, fired[h], old(virt.hostReady), old(virt.source), virt.level);
      var i := back[fired[h]];
      match list[i] {
        case AlwaysReady => assert false;
        case Never => assert false;
        case _ =>
          var yes := virt.ReadyNow(list[i]);
          if yes {
            ready := ready + [i];
          }
      }
    }
  }

  /**
   * The exported `poll`. It panics on exactly the lists that could never become ready. What it
   * returns is not empty, in range and ready; without a wait it is everything locally ready. Over a
   * level-triggered source it waits on the host at most once, whatever the number of sockets.
   */
  method Poll(virt: Virt, list: seq<VPollable>) returns (r: PollResult)
    requires virt.Valid() && forall i :: 0 <= i < |list| ==> virt.InPlace(list[i])
    modifies virt`queues, virt`source, virt`log, virt`hostReady, virt`waits, virt`arrived, virt`asked
    ensures virt.Valid() && |virt.queues| == old(|virt.queues|)
    ensures r.Suspended? ==> old(virt.asked) < virt.asked
    ensures r.Ready? && old(virt.asked) < virt.asked ==> old(virt.waits) < virt.waits
    ensures r.Panic? <==> forall i :: 0 <= i < |list| ==> list[i].Never?
    ensures r.Ready? ==> r.indices != [] && forall i :: i in r.indices ==> i < |list| && virt.IsReady(list[i])
    ensures r.Ready? && virt.waits == old(virt.waits) ==>
              forall i :: 0 <= i < |list| ==> (i in r.indices <==> virt.ReadyLocally(list[i]))
    ensures r.Suspended? ==> forall i :: 0 <= i < |list| ==> !virt.ReadyLocally(list[i])
    ensures virt.level ==> virt.waits <= old(virt.waits) + 1
  {
    if list == [] {
      return Panic;
    }
    var n := |virt.queues|;
    while true
      invariant virt.Valid() && |virt.queues| == n && old(virt.waits) <= virt.waits
      invariant virt.asked - old(virt.asked) == virt.waits - old(virt.waits)
      invariant virt.level ==> virt.waits == old(virt.waits)
      decreases |virt.wakes| - virt.waits
    {
      var ready := virt.LocalPass(list);
      if ready != [] {
        assert ready[0] in ready;
        return Ready(ready);
      }
      var refs, back := HostRefs(list);
      if refs == [] {
        return Panic;
      }
      assert back[0] in back;
      var fired := virt.HostPoll(refs);
      if fired.None? {
        return Suspended;
      }
      assert forall h :: 0 <= h < |fired.value| ==>
               MayFire(refs, fired.value[h], virt.hostReady, virt.source, virt.level);
      ready := FiredPass(virt, list, refs, back, fired.value);
      if ready != [] {
        return Ready(ready);
      }
    }
  }
}
