/** Routing of messages from the server: echoes of what this side posted and prompts
    delivered again are recognised by two bounded memories of ids. */
module BridgeMessaging {
  import opened Prelude

  type Uuid = string

  // ---- The bounded set and the history it stands for ----

  /** The last `capacity` accepted ids, oldest first. */
  function Recent(accepted: seq<Uuid>, capacity: nat): seq<Uuid> {
    if |accepted| <= capacity then accepted else accepted[|accepted| - capacity..]
  }

  /** Adding an id that is still remembered changes nothing. */
  function Accept(accepted: seq<Uuid>, capacity: nat, uuid: Uuid): seq<Uuid> {
    if uuid in Recent(accepted, capacity) then accepted else accepted + [uuid]
  }

  predicate Distinct(s: seq<Uuid>) { forall i, j :: 0 <= i < j < |s| ==> s[i] != s[j] }

  /** What the ring holds when read from the write position: empty slots, then the recent ids. */
  predicate Holds(queue: seq<Option<Uuid>>, recent: seq<Uuid>) {
    && |recent| <= |queue|
    && (forall i :: 0 <= i < |queue| - |recent| ==> queue[i] == None)
    && (forall i :: 0 <= i < |recent| ==> queue[|queue| - |recent| + i] == Some(recent[i]))
  }

  class BoundedUUIDSet {
    const capacity: nat
    const ring: array<Option<Uuid>>
    var members: set<Uuid>
    var writeIdx: nat
    ghost var accepted: seq<Uuid>  // all ids accepted since the last clear

    ghost function Queue(): seq<Option<Uuid>>
      reads this, ring
      requires writeIdx <= ring.Length
    {
      ring[writeIdx..] + ring[..writeIdx]
    }

    ghost predicate Valid()
      reads this, ring
    {
      && 0 < capacity == ring.Length && writeIdx < capacity
      && Holds(Queue(), Recent(accepted, capacity))
      && Distinct(Recent(accepted, capacity))
      && (forall x :: x in members <==> x in Recent(accepted, capacity))
    }

    constructor (capacity: nat)
      requires capacity > 0
      ensures Valid() && fresh(ring) && this.capacity == capacity && accepted == []
    {
      this.capacity := capacity;
      ring := new Option<Uuid>[capacity](_ => None);
      members := {};
      writeIdx := 0;
      accepted := [];
    }

    method Add(uuid: Uuid)
      requires Valid()
      modifies this, ring
      ensures Valid() && accepted == Accept(old(accepted), capacity, uuid)
    {
      hide Holds, Distinct, Recent;
      if uuid in members { return; }
      ghost var before := ring[..];
      ghost var recent := Recent(accepted, capacity);
      Evict(Queue(), accepted, capacity, uuid);
      var evicted := ring[writeIdx];
      if evicted.Some? {
        members := members - {evicted.value};
      }
      ring[writeIdx] := Some(uuid);
      members := members + {uuid};
      assert ring[..] == before[writeIdx := Some(uuid)];
      Rotate(before, writeIdx, Some(uuid));
      NextIndex(writeIdx, capacity);
      writeIdx := (writeIdx + 1) % capacity;
      accepted := accepted + [uuid];
      assert ring[writeIdx..] == ring[..][writeIdx..] && ring[..writeIdx] == ring[..][..writeIdx];
    }

    /** The set answers for the history: exactly the last `capacity` accepted ids are in it. */
    method Has(uuid: Uuid) returns (b: bool)
      requires Valid()
      ensures b <==> uuid in Recent(accepted, capacity)
    {
      b := uuid in members;
    }

    method Clear()
      requires Valid()
      modifies this, ring
      ensures Valid() && accepted == []
    {
      members := {};
      for i := 0 to ring.Length
        invariant forall j :: 0 <= j < i ==> ring[j] == None
        invariant members == {} && accepted == old(accepted)
      {
        ring[i] := None;
      }
      writeIdx := 0;
      accepted := [];
    }
  }

  lemma NextIndex(w: nat, capacity: nat)
    requires w < capacity
    ensures (w + 1) % capacity == if w + 1 == capacity then 0 else w + 1
  {
  }

  /** Writing at the write position and moving on drops the queue's front and extends its back. */
  lemma Rotate(ring: seq<Option<Uuid>>, w: nat, x: Option<Uuid>)
    requires w < |ring|
    ensures var w' := if w + 1 == |ring| then 0 else w + 1;
            ring[w := x][w'..] + ring[w := x][..w'] == (ring[w..] + ring[..w])[1..] + [x]
  {
  }

  /** The front of a full queue is the oldest recent id; a queue that is not full has an empty front. */
  lemma Front(queue: seq<Option<Uuid>>, recent: seq<Uuid>)
    requires queue != [] && Holds(queue, recent)
    ensures queue[0] == if |recent| == |queue| then Some(recent[0]) else None
  {
  }

  lemma HoldsNext(queue: seq<Option<Uuid>>, before: seq<Uuid>, uuid: Uuid)
    requires queue != [] && Holds(queue, before)
    ensures Holds(queue[1..] + [Some(uuid)], (if |before| == |queue| then before[1..] else before) + [uuid])
  {
  }

  /** Letting go of the front and taking one more. */
  lemma Shift(before: seq<Uuid>, front: Option<Uuid>, kept: seq<Uuid>, uuid: Uuid)
    requires Distinct(before) && uuid !in before
    requires (front == None && kept == before) || (before != [] && front == Some(before[0]) && kept == before[1..])
    ensures Distinct(kept + [uuid])
    ensures forall x :: x in kept + [uuid] <==> x == uuid || (x in before && front != Some(x))
  {
    if front.Some? {
      assert before == [before[0]] + kept;
    }
  }

  lemma Evict(queue: seq<Option<Uuid>>, accepted: seq<Uuid>, capacity: nat, uuid: Uuid)
    requires |queue| == capacity > 0 && uuid !in Recent(accepted, capacity)
    requires Holds(queue, Recent(accepted, capacity)) && Distinct(Recent(accepted, capacity))
    ensures var after := Recent(accepted + [uuid], capacity);
            && Holds(queue[1..] + [Some(uuid)], after) && Distinct(after)
            && forall x :: x in after <==> x == uuid || (x in Recent(accepted, capacity) && queue[0] != Some(x))
  {
    hide Holds, Distinct;
    var before := Recent(accepted, capacity);
    var kept := if |before| == capacity then before[1..] else before;
    assert Recent(accepted + [uuid], capacity) == kept + [uuid];
    Front(queue, before);
    HoldsNext(queue, before, uuid);
    Shift(before, queue[0], kept, uuid);
  }

  // ---- Ingress ----

  /** What arrives on the socket, by the tests applied to it. `Unreadable`: it does not parse. */
  datatype Ingress =
    | Unreadable
    | ControlResponse(body: nat)
    | ControlRequest(body: nat)
    | NotSdk
    | Sdk(isUser: bool, uuid: Option<Uuid>, body: nat)

  /** Which handler gets the message. */
  datatype Route = Ignored | PermissionResponse | Control | Inbound

  /** An id counts only if it is there and not empty. */
  predicate HasId(m: Ingress) { m.Sdk? && m.uuid.Some? && m.uuid.value != "" }

  /** Both memories, as the histories they stand for. */
  datatype Memory = Memory(posted: seq<Uuid>, inbound: seq<Uuid>)

  datatype Sizes = Sizes(posted: nat, inbound: nat)

  predicate Known(z: Sizes, k: Memory, uuid: Uuid) {
    uuid in Recent(k.posted, z.posted) || uuid in Recent(k.inbound, z.inbound)
  }

  function RouteOf(z: Sizes, k: Memory, m: Ingress): Route {
    match m
    case Unreadable => Ignored
    case ControlResponse(_) => PermissionResponse
    case ControlRequest(_) => Control
    case NotSdk => Ignored
    case Sdk(isUser, _, _) => if isUser && !(HasId(m) && Known(z, k, m.uuid.value)) then Inbound else Ignored
  }

  function Remember(z: Sizes, k: Memory, m: Ingress): Memory {
    if RouteOf(z, k, m) == Inbound && HasId(m) then k.(inbound := Accept(k.inbound, z.inbound, m.uuid.value)) else k
  }

  method HandleIngressMessage(m: Ingress, recentPosted: BoundedUUIDSet, recentInbound: BoundedUUIDSet) returns (route: Route)
    requires recentPosted.Valid() && recentInbound.Valid()
    requires recentPosted != recentInbound && recentPosted.ring != recentInbound.ring
    modifies recentInbound, recentInbound.ring
    ensures recentPosted.Valid() && recentInbound.Valid()
    ensures var z := Sizes(recentPosted.capacity, recentInbound.capacity);
            var k := Memory(recentPosted.accepted, old(recentInbound.accepted));
            route == RouteOf(z, k, m) && recentInbound.accepted == Remember(z, k, m).inbound
  {
    hide Recent, Holds, Distinct;
    match m {
      case Unreadable => return Ignored;
      case ControlResponse(_) => return PermissionResponse;
      case ControlRequest(_) => return Control;
      case NotSdk => return Ignored;
      case Sdk(isUser, uuid, _) =>
        var hasId := uuid.Some? && uuid.value != "";
        if hasId {
          var echo := recentPosted.Has(uuid.value);
          if echo { return Ignored; }
          var again := recentInbound.Has(uuid.value);
          if again { return Ignored; }
        }
        if !isUser { return Ignored; }
        if hasId {
          recentInbound.Add(uuid.value);
        }
        return Inbound;
    }
  }

  // ---- Whole runs ----

  datatype Step = Arrive(message: Ingress) | Post(uuid: Uuid) | ClearInbound

  function Next(z: Sizes, k: Memory, step: Step): Memory {
    match step
    case Arrive(m) => Remember(z, k, m)
    case Post(uuid) => k.(posted := Accept(k.posted, z.posted, uuid))
    case ClearInbound => k.(inbound := [])
  }

  /** The id of the user message this step forwards, if it has one. */
  function Forward(z: Sizes, k: Memory, step: Step): seq<Uuid> {
    if step.Arrive? && RouteOf(z, k, step.message) == Inbound && HasId(step.message) then [step.message.uuid.value] else []
  }

  /** The ids of the user messages forwarded by a run, in order; messages without an id are not listed. */
  function Forwarded(z: Sizes, k: Memory, steps: seq<Step>): seq<Uuid>
    decreases |steps|
  {
    if steps == [] then [] else Forward(z, k, steps[0]) + Forwarded(z, Next(z, k, steps[0]), steps[1..])
  }

  function After(z: Sizes, k: Memory, steps: seq<Step>): Memory
    decreases |steps|
  {
    if steps == [] then k else After(z, Next(z, k, steps[0]), steps[1..])
  }

  /** No id equals one of the `capacity` before it. */
  predicate Spread(s: seq<Uuid>, capacity: nat) {
    forall i, j :: 0 <= i < j < |s| && j - i <= capacity ==> s[i] != s[j]
  }

  lemma AcceptSpread(accepted: seq<Uuid>, capacity: nat, uuid: Uuid)
    requires Spread(accepted, capacity)
    ensures Spread(Accept(accepted, capacity, uuid), capacity)
  {
    var next := Accept(accepted, capacity, uuid);
    if next != accepted {
      forall i | 0 <= i < |accepted| && |accepted| - i <= capacity ensures accepted[i] != uuid {
        var recent := Recent(accepted, capacity);
        assert recent[i - (|accepted| - |recent|)] == accepted[i];
      }
    }
  }

  predicate NoClear(steps: seq<Step>) { forall step <- steps :: !step.ClearInbound? }

  lemma StepHistory(z: Sizes, k: Memory, step: Step)
    requires !step.ClearInbound? && Spread(k.inbound, z.inbound)
    ensures Next(z, k, step).inbound == k.inbound + Forward(z, k, step)
    ensures Spread(Next(z, k, step).inbound, z.inbound)
  {
    hide Recent, Spread;
    if step.Arrive? && HasId(step.message) {
      AcceptSpread(k.inbound, z.inbound, step.message.uuid.value);
    }
  }

  /** Without a clear, the inbound history is what was forwarded, and no id comes back too soon. */
  lemma {:induction false} HistoryIsForwarded(z: Sizes, k: Memory, steps: seq<Step>)
    requires NoClear(steps) && Spread(k.inbound, z.inbound)
    ensures After(z, k, steps).inbound == k.inbound + Forwarded(z, k, steps)
    ensures Spread(k.inbound + Forwarded(z, k, steps), z.inbound)
    decreases |steps|
  {
    hide Spread, Next, Forward;
    if steps == [] {
      assert k.inbound + [] == k.inbound;
    } else {
      var next := Next(z, k, steps[0]);
      assert steps[0] in steps;
      StepHistory(z, k, steps[0]);
      HistoryIsForwarded(z, next, steps[1..]);
      assert k.inbound + Forwarded(z, k, steps) == next.inbound + Forwarded(z, next, steps[1..]);
    }
  }

  function Elements(s: seq<Uuid>): set<Uuid> { set x <- s }

  lemma {:induction false} DistinctCount(s: seq<Uuid>)
    requires Distinct(s)
    ensures |Elements(s)| == |s|
  {
    if s != [] {
      var init := s[..|s| - 1];
      DistinctCount(init);
      assert Elements(s) == Elements(init) + {s[|s| - 1]};
    }
  }

  lemma SpreadGap(s: seq<Uuid>, capacity: nat, i: nat, j: nat)
    requires Spread(s, capacity) && i < j < |s| && s[i] == s[j]
    ensures |Elements(s[i + 1..j]) - {s[i]}| >= capacity
  {
    var last := s[j - capacity..j];
    assert Distinct(last);
    DistinctCount(last);
    forall x | x in last ensures x in s[i + 1..j] && x != s[i] {
      var k :| 0 <= k < |last| && last[k] == x;
      assert s[i + 1..j][j - capacity + k - (i + 1)] == x;
    }
    SubsetSize(Elements(last), Elements(s[i + 1..j]) - {s[i]});
  }

  /** Dedup window. Between two forwards of the same id, user messages with at least
      `capacity` different other ids were forwarded. */
  lemma ForwardedAgainOnlyAfter(z: Sizes, posted: seq<Uuid>, steps: seq<Step>, i: nat, j: nat)
    requires NoClear(steps)
    requires var sent := Forwarded(z, Memory(posted, []), steps); i < j < |sent| && sent[i] == sent[j]
    ensures var sent := Forwarded(z, Memory(posted, []), steps);
            |Elements(sent[i + 1..j]) - {sent[i]}| >= z.inbound
  {
    hide Forwarded, Elements;
    var sent := Forwarded(z, Memory(posted, []), steps);
    HistoryIsForwarded(z, Memory(posted, []), steps);
    assert [] + sent == sent;
    SpreadGap(sent, z.inbound, i, j);
  }

  /** No echo is forwarded: neither a remembered post nor a remembered prompt gets through, and
      every other user message does. */
  lemma ForwardedExactlyWhenNew(z: Sizes, posted: seq<Uuid>, steps: seq<Step>, m: Ingress)
    requires NoClear(steps) && m.Sdk? && m.isUser && HasId(m)
    ensures var k := After(z, Memory(posted, []), steps);
            var sent := Forwarded(z, Memory(posted, []), steps);
            RouteOf(z, k, m) == Inbound <==>
            m.uuid.value !in Recent(k.posted, z.posted) && m.uuid.value !in Recent(sent, z.inbound)
  {
    HistoryIsForwarded(z, Memory(posted, []), steps);
    assert [] + Forwarded(z, Memory(posted, []), steps) == Forwarded(z, Memory(posted, []), steps);
  }

  /** Where each message goes, after any run: permission responses and control requests to their handlers
      whatever the memories hold, user messages without an id always inwards, those
      with an id when it is in neither window, and nothing else anywhere. */
  lemma WhereMessagesGo(z: Sizes, k0: Memory, steps: seq<Step>, m: Ingress)
    ensures var k := After(z, k0, steps);
            && (RouteOf(z, k, m) == PermissionResponse <==> m.ControlResponse?)
            && (RouteOf(z, k, m) == Control <==> m.ControlRequest?)
            && (RouteOf(z, k, m) == Inbound <==>
                  m.Sdk? && m.isUser &&
                  (m.uuid == None || m.uuid.value == "" ||
                   (m.uuid.value !in Recent(k.posted, z.posted) && m.uuid.value !in Recent(k.inbound, z.inbound))))
            && (RouteOf(z, k, m) != Inbound ==> Next(z, k, Arrive(m)) == k)
  {
    hide Recent, After;
  }

  predicate Since(posted: seq<Uuid>, uuid: Uuid, n: nat) {
    exists i :: 0 <= i < |posted| && posted[i] == uuid && |posted| - i <= n
  }

  function Posts(steps: seq<Step>): nat { if steps == [] then 0 else (if steps[0].Post? then 1 else 0) + Posts(steps[1..]) }

  lemma PostKeepsSince(posted: seq<Uuid>, capacity: nat, x: Uuid, uuid: Uuid, n: nat)
    requires Since(posted, uuid, n)
    ensures Since(Accept(posted, capacity, x), uuid, n + 1)
  {
    hide Recent;
    var i :| 0 <= i < |posted| && posted[i] == uuid && |posted| - i <= n;
    assert Accept(posted, capacity, x)[i] == uuid;
  }

  lemma {:induction false} RunKeepsSince(z: Sizes, k: Memory, steps: seq<Step>, uuid: Uuid, n: nat)
    requires Since(k.posted, uuid, n)
    ensures Since(After(z, k, steps).posted, uuid, n + Posts(steps))
    decreases |steps|
  {
    hide Since, RouteOf;
    if steps != [] {
      match steps[0] {
        case Post(x) =>
          PostKeepsSince(k.posted, z.posted, x, uuid, n);
          RunKeepsSince(z, Next(z, k, steps[0]), steps[1..], uuid, n + 1);
        case _ => RunKeepsSince(z, Next(z, k, steps[0]), steps[1..], uuid, n);
      }
    }
  }

  /** An echo of a post is not forwarded: what has just been posted for the first time in its window comes back as
      nothing while fewer than `posted` other posts have followed. */
  lemma EchoIsIgnored(z: Sizes, k: Memory, uuid: Uuid, steps: seq<Step>, isUser: bool, body: nat)
    requires uuid != "" && uuid !in Recent(k.posted, z.posted) && Posts(steps) < z.posted
    ensures RouteOf(z, After(z, Next(z, k, Post(uuid)), steps), Sdk(isUser, Some(uuid), body)) == Ignored
  {
    var now := Next(z, k, Post(uuid));
    assert now.posted[|k.posted|] == uuid;
    assert Since(now.posted, uuid, 1);
    RunKeepsSince(z, now, steps, uuid, 1);
    var posted := After(z, now, steps).posted;
    var i :| 0 <= i < |posted| && posted[i] == uuid && |posted| - i <= 1 + Posts(steps);
    var recent := Recent(posted, z.posted);
    assert recent[i - (|posted| - |recent|)] == uuid;
  }
}
