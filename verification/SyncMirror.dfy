/** What sync is for: while only the bridge's user edits, the gateway's folder should
    become a copy of the bridge's, up to the placeholders of oversized files. It
    does, except where the gateway has sent the bridge a content, a placeholder or
    an echo, or the bridge has lost sight of a removal. */
module SyncMirror {
  import opened Prelude
  import opened Scanner
  import opened SyncProtocol

  type Contents = map<Path, Data>

  function ContentsOf(disk: map<Path, File>): Contents {
    map p | p in disk :: disk[p].data
  }

  function Absorb(c: Contents, frames: seq<Frame>): Contents
    decreases |frames|
  {
    if frames == [] then c
    else
      var f := frames[0];
      Absorb(if f.action.Remove? then c - {f.path} else c[f.path := f.content], frames[1..])
  }

  lemma {:induction false} AbsorbLast(c: Contents, frames: seq<Frame>, f: Frame)
    ensures Absorb(c, frames + [f])
            == (if f.action.Remove? then Absorb(c, frames) - {f.path} else Absorb(c, frames)[f.path := f.content])
    decreases |frames|
  {
    if frames == [] {
      assert ([] + [f]) == [f] && [f][1..] == [];
    } else {
      assert (frames + [f])[1..] == frames[1..] + [f];
      var g := frames[0];
      AbsorbLast(if g.action.Remove? then c - {g.path} else c[g.path := g.content], frames[1..], f);
    }
  }

  /** The gateway's folder once every frame gathered or in flight has been written. */
  ghost function Ahead(s: System): Contents {
    Absorb(ContentsOf(s.server.disk), s.server.inbox + s.bridge.batch)
  }

  /** Steps of a run in which only the bridge's user edits: each edit is newer than the watcher's
      last sight of the file, and no frame for the gateway is lost. */
  ghost predicate SoleWriter(s: System, step: Step)
    requires Enabled(s, step)
  {
    match step
    case LocalEdit(side, p, _, time) => side.Bridge? && (p in s.bridge.snapshot ==> s.bridge.snapshot[p] < time)
    case LocalRemove(side, _) => side.Bridge?
    case Send(side, delivered) => side.Bridge? ==> delivered
    case Deliver(side, _, ok) => side.Server? ==> ok
    case _ => true
  }

  ghost predicate SoleWriterRun(s: System, steps: seq<Step>)
    requires CanRun(s, steps)
    decreases |steps|
  {
    steps == [] || (SoleWriter(s, steps[0]) && SoleWriterRun(Next(s, steps[0]), steps[1..]))
  }

  // ---- Removals the bridge never reports ----

  /** The paths whose removal the gateway is not going to hear of: the callback skipped the removal because a
      content had just been written there, or the watcher started over before
      seeing it. The next frame about a path settles it. */
  ghost function NextMissed(s: System, missed: set<Path>, step: Step): set<Path>
    requires Enabled(s, step)
  {
    if step == Filter(Bridge) then
      var e := s.bridge.events[0];
      if Filtered(s.bridge, e).Some? then missed - {e.path}
      else if e.action.Remove? && e.path in Ahead(s) then missed + {e.path}
      else missed
    else if step.Restart? && step.side.Bridge? then missed + (Ahead(s).Keys - s.bridge.disk.Keys)
    else missed
  }

  ghost function Missed(s: System, missed: set<Path>, steps: seq<Step>): set<Path>
    requires CanRun(s, steps)
    decreases |steps|
  {
    if steps == [] then missed else Missed(Next(s, steps[0]), NextMissed(s, missed, steps[0]), steps[1..])
  }

  // ---- The invariant ----

  ghost predicate Pending(n: Node, p: Path) {
    exists e :: e in n.events && e.path == p
  }

  /** What the bridge has scanned and does not hold in jail is what the gateway will hold, unless it has
      changed since; what it has not scanned the gateway will not hold, unless a removal was missed. */
  ghost predicate InStep(b: Node, ahead: Contents, missed: set<Path>, p: Path) {
    if p in b.snapshot then
      p in b.disk && !InJail(b, p) && b.disk[p].modTime <= b.snapshot[p]
      ==> p in ahead && ahead[p] == Payload(b.disk[p].data)
    else p in ahead ==> p in missed
  }

  ghost predicate EventsFit(b: Node) {
    && DistinctPaths(b.events)
    && forall e :: e in b.events ==> (e.action.Remove? <==> e.path !in b.snapshot)
  }

  ghost predicate Mirrored(s: System, missed: set<Path>) {
    && EventsFit(s.bridge)
    && missed <= Ahead(s).Keys
    && forall p :: !Pending(s.bridge, p) ==> InStep(s.bridge, Ahead(s), missed, p)
  }

  // ---- The bridge's steps ----

  lemma BridgeEdit(s: System, missed: set<Path>, step: Step)
    requires Mirrored(s, missed) && Enabled(s, step) && SoleWriter(s, step) && (step.LocalEdit? || step.LocalRemove?)
    ensures Mirrored(Next(s, step), missed)
  {
    var t := Next(s, step);
    assert Ahead(t) == Ahead(s);
    forall p | !Pending(t.bridge, p) ensures InStep(t.bridge, Ahead(t), missed, p) {
      assert !Pending(s.bridge, p) && InStep(s.bridge, Ahead(s), missed, p);
    }
  }

  lemma BridgeWalk(s: System, missed: set<Path>, found: seq<Event>)
    requires Mirrored(s, missed) && Enabled(s, Walk(Bridge, found))
    ensures Mirrored(Next(s, Walk(Bridge, found)), missed)
  {
    var b := s.bridge;
    var t := Next(s, Walk(Bridge, found));
    var cur := ModTimes(b.disk);
    assert Ahead(t) == Ahead(s);
    forall e | e in found ensures e.action.Remove? <==> e.path !in cur {
      assert e == Event(e.action, e.path) && Change(b.snapshot, cur, e.path) == Some(e.action);
    }
    forall p | !Pending(t.bridge, p) ensures InStep(t.bridge, Ahead(t), missed, p) {
      assert !Pending(b, p) && InStep(b, Ahead(s), missed, p);
      assert forall a :: Event(a, p) !in found;
      assert Change(b.snapshot, cur, p) == None;
    }
  }

  lemma BridgeRestart(s: System, missed: set<Path>, found: seq<Event>)
    requires Mirrored(s, missed) && Enabled(s, Restart(Bridge, found))
    ensures Mirrored(Next(s, Restart(Bridge, found)), NextMissed(s, missed, Restart(Bridge, found)))
  {
    var b := s.bridge;
    var t := Next(s, Restart(Bridge, found));
    var cur := ModTimes(b.disk);
    var missed' := NextMissed(s, missed, Restart(Bridge, found));
    assert Ahead(t) == Ahead(s);
    forall e | e in found ensures e.action.Create? && e.path in cur {
      assert e == Event(e.action, e.path) && Change(map[], cur, e.path) == Some(e.action);
    }
    forall p | !Pending(t.bridge, p) ensures InStep(t.bridge, Ahead(t), missed', p) {
      assert forall a :: Event(a, p) !in found;
      assert Change(map[], cur, p) == None;
    }
  }

  /** The gateway is told what the callback lets through, and of nothing else. */
  lemma BridgeFilterAhead(s: System)
    requires Enabled(s, Filter(Bridge))
    ensures var e := s.bridge.events[0];
            Ahead(Next(s, Filter(Bridge))) ==
            match Filtered(s.bridge, e)
            case None => Ahead(s)
            case Some(f) => if f.action.Remove? then Ahead(s) - {e.path} else Ahead(s)[e.path := f.content]
  {
    var b := s.bridge;
    var e := b.events[0];
    if Filtered(b, e).Some? {
      var f := MakeFrame(b, e);
      assert s.server.inbox + (b.batch + [f]) == (s.server.inbox + b.batch) + [f];
      AbsorbLast(ContentsOf(s.server.disk), s.server.inbox + b.batch, f);
    }
  }

  lemma BridgeFilter(s: System, missed: set<Path>)
    requires Mirrored(s, missed) && Enabled(s, Filter(Bridge))
    ensures Mirrored(Next(s, Filter(Bridge)), NextMissed(s, missed, Filter(Bridge)))
  {
    hide Ahead;
    var b := s.bridge;
    var e := b.events[0];
    var t := Next(s, Filter(Bridge));
    assert b.events == [e] + t.bridge.events;
    assert e in b.events && e == Event(e.action, e.path);
    BridgeFilterAhead(s);
    var missed' := NextMissed(s, missed, Filter(Bridge));
    forall p | !Pending(t.bridge, p) ensures InStep(t.bridge, Ahead(t), missed', p) {
      if p != e.path {
        assert !Pending(b, p) && InStep(b, Ahead(s), missed, p);
      }
    }
  }

  lemma BridgeSend(s: System, missed: set<Path>)
    requires Mirrored(s, missed) && Enabled(s, Send(Bridge, true))
    ensures Mirrored(Next(s, Send(Bridge, true)), missed)
  {
    var t := Next(s, Send(Bridge, true));
    assert t.server.inbox + t.bridge.batch == s.server.inbox + s.bridge.batch;
    assert Ahead(t) == Ahead(s);
    SameBridge(s, missed, t);
  }

  /** A received content is in jail at its time, so nothing is claimed of it. */
  lemma BridgeDeliver(s: System, missed: set<Path>, time: Time, ok: bool)
    requires Mirrored(s, missed) && Enabled(s, Deliver(Bridge, time, ok))
    ensures Mirrored(Next(s, Deliver(Bridge, time, ok)), missed)
  {
    var t := Next(s, Deliver(Bridge, time, ok));
    assert Ahead(t) == Ahead(s);
    forall p | !Pending(t.bridge, p) ensures InStep(t.bridge, Ahead(t), missed, p) {
      assert !Pending(s.bridge, p) && InStep(s.bridge, Ahead(s), missed, p);
    }
  }

  // ---- The gateway's steps ----

  lemma GatewayAhead(s: System, time: Time)
    requires Enabled(s, Deliver(Server, time, true))
    ensures Ahead(Next(s, Deliver(Server, time, true))) == Ahead(s)
  {
    var t := Next(s, Deliver(Server, time, true));
    var n := s.server;
    var f := n.inbox[0];
    var frames := n.inbox + s.bridge.batch;
    assert frames[0] == f && frames[1..] == t.server.inbox + t.bridge.batch;
    var c := ContentsOf(n.disk);
    assert ContentsOf(t.server.disk) == if f.action.Remove? then c - {f.path} else c[f.path := f.content];
  }

  lemma SameBridge(s: System, missed: set<Path>, t: System)
    requires Mirrored(s, missed) && Ahead(t) == Ahead(s)
    requires t.bridge == s.bridge.(batch := t.bridge.batch, inbox := t.bridge.inbox)
    ensures Mirrored(t, missed)
  {
    hide Ahead;
    forall p | !Pending(t.bridge, p) ensures InStep(t.bridge, Ahead(t), missed, p) {
      assert !Pending(s.bridge, p) && InStep(s.bridge, Ahead(s), missed, p);
    }
  }

  /** Whatever the gateway does, with its jail collected early, its watcher started over or its files
      sent back, it forgets nothing of what the bridge has told it. */
  lemma GatewayStep(s: System, missed: set<Path>, step: Step)
    requires Mirrored(s, missed) && Enabled(s, step) && SoleWriter(s, step) && step.side.Server?
    ensures Mirrored(Next(s, step), missed)
  {
    hide Mirrored;
    var t := Next(s, step);
    if step.Deliver? {
      GatewayAhead(s, step.time);
    } else {
      assert Ahead(t) == Ahead(s) by { SameAhead(s, t); }
    }
    SameBridge(s, missed, t);
  }

  lemma SameAhead(s: System, t: System)
    requires t.server.disk == s.server.disk && t.server.inbox == s.server.inbox && t.bridge.batch == s.bridge.batch
    ensures Ahead(t) == Ahead(s)
  {
  }

  lemma StepKeepsMirrored(s: System, missed: set<Path>, step: Step)
    requires Mirrored(s, missed) && Enabled(s, step) && SoleWriter(s, step)
    ensures Mirrored(Next(s, step), NextMissed(s, missed, step))
  {
    hide Mirrored, Ahead;
    if step.side.Server? {
      GatewayStep(s, missed, step);
    } else {
      match step
      case LocalEdit(_, _, _, _) => BridgeEdit(s, missed, step);
      case LocalRemove(_, _) => BridgeEdit(s, missed, step);
      case Walk(_, found) => BridgeWalk(s, missed, found);
      case Filter(_) => BridgeFilter(s, missed);
      case Send(_, _) => BridgeSend(s, missed);
      case Deliver(_, time, ok) => BridgeDeliver(s, missed, time, ok);
      case Restart(_, found) => BridgeRestart(s, missed, found);
    }
  }

  lemma {:induction false} RunKeepsMirrored(s: System, missed: set<Path>, steps: seq<Step>)
    requires Mirrored(s, missed) && CanRun(s, steps) && SoleWriterRun(s, steps)
    ensures Mirrored(Run(s, steps), Missed(s, missed, steps))
    decreases |steps|
  {
    hide Mirrored, NextMissed;
    if steps != [] {
      StepKeepsMirrored(s, missed, steps[0]);
      RunKeepsMirrored(Next(s, steps[0]), NextMissed(s, missed, steps[0]), steps[1..]);
    }
  }

  // ---- Convergence ----

  /** The bridge's last scan is processed and current, and nothing is on its way to the gateway. */
  ghost predicate CaughtUp(s: System) {
    Idle(s.bridge) && s.server.inbox == [] && s.bridge.snapshot == ModTimes(s.bridge.disk)
  }

  /** The gateway holds the path with the payload the bridge would send of it. */
  ghost predicate Copied(s: System, p: Path)
    requires p in s.bridge.disk
  {
    p in s.server.disk && s.server.disk[p].data == Payload(s.bridge.disk[p].data)
  }

  /** The gateway's folder is the bridge's, oversized files as empty ones. */
  ghost predicate Mirrors(s: System) {
    s.server.disk.Keys == s.bridge.disk.Keys && forall p :: p in s.bridge.disk ==> Copied(s, p)
  }

  lemma MirroredAtStart(s: System)
    requires Initial(s) && s.server.disk == map[]
    ensures Mirrored(s, {})
  {
    assert s.At(Bridge) == s.bridge && s.At(Server) == s.server;
    assert Ahead(s) == map[] by { assert s.server.inbox + s.bridge.batch == []; }
  }

  /** Convergence, exactly. Whenever the bridge has caught up, over any interleaving of scans, callbacks,
      deliveries, returned removals, placeholders, echoes, jail collections and
      restarts, the gateway holds a copy of every file of the bridge that is not in
      jail at its time, and of the paths the bridge does not hold it holds just those
      whose removal was missed. It mirrors the bridge if and only if it also holds a
      copy of the files in jail, and nothing missed is still there. */
  lemma GatewayMirrorsBridge(s: System, steps: seq<Step>)
    requires Initial(s) && s.server.disk == map[]
    requires CanRun(s, steps) && SoleWriterRun(s, steps) && CaughtUp(Run(s, steps))
    ensures var t := Run(s, steps);
            var missed := Missed(s, {}, steps);
            && (forall p :: p in t.bridge.disk && !InJail(t.bridge, p) ==> Copied(t, p))
            && (forall p :: p !in t.bridge.disk ==> (p in t.server.disk <==> p in missed))
            && (Mirrors(t) <==>
                  missed <= t.bridge.disk.Keys && forall p :: p in t.bridge.disk && InJail(t.bridge, p) ==> Copied(t, p))
  {
    MirroredAtStart(s);
    RunKeepsMirrored(s, {}, steps);
    CaughtUpAgrees(Run(s, steps), Missed(s, {}, steps));
  }

  /** Byte for byte: whenever the bridge has caught up, the gateway holds the very data of every file of the bridge
      that is not in jail and has at most 10 MiB, and an empty file for a bigger one. */
  lemma GatewayHoldsData(s: System, steps: seq<Step>, p: Path)
    requires Initial(s) && s.server.disk == map[]
    requires CanRun(s, steps) && SoleWriterRun(s, steps) && CaughtUp(Run(s, steps))
    requires p in Run(s, steps).bridge.disk && !InJail(Run(s, steps).bridge, p)
    ensures var t := Run(s, steps);
            && p in t.server.disk
            && t.server.disk[p].data == if |t.bridge.disk[p].data| <= 10 * 1024 * 1024 then t.bridge.disk[p].data else []
  {
    hide Mirrors, Missed;
    GatewayMirrorsBridge(s, steps);
    assert Copied(Run(s, steps), p);
  }

  lemma CaughtUpAgrees(t: System, missed: set<Path>)
    requires Mirrored(t, missed) && CaughtUp(t)
    ensures forall p :: p in t.bridge.disk && !InJail(t.bridge, p) ==> Copied(t, p)
    ensures forall p :: p !in t.bridge.disk ==> (p in t.server.disk <==> p in missed)
    ensures Mirrors(t) <==>
            missed <= t.bridge.disk.Keys && forall p :: p in t.bridge.disk && InJail(t.bridge, p) ==> Copied(t, p)
  {
    assert t.server.inbox + t.bridge.batch == [];
    assert Ahead(t) == ContentsOf(t.server.disk);
    forall p | p in t.bridge.disk && !InJail(t.bridge, p) ensures Copied(t, p) {
      assert !Pending(t.bridge, p) && InStep(t.bridge, Ahead(t), missed, p);
      assert Ahead(t)[p] == t.server.disk[p].data;
    }
    forall p | p !in t.bridge.disk ensures p in t.server.disk <==> p in missed {
      assert !Pending(t.bridge, p) && InStep(t.bridge, Ahead(t), missed, p);
    }
    MirrorsIff(t, missed);
  }

  lemma MirrorsIff(t: System, missed: set<Path>)
    requires forall p :: p in t.bridge.disk && !InJail(t.bridge, p) ==> Copied(t, p)
    requires forall p :: p !in t.bridge.disk ==> (p in t.server.disk <==> p in missed)
    ensures Mirrors(t) <==>
            missed <= t.bridge.disk.Keys && forall p :: p in t.bridge.disk && InJail(t.bridge, p) ==> Copied(t, p)
  {
    var agree := missed <= t.bridge.disk.Keys && forall p :: p in t.bridge.disk && InJail(t.bridge, p) ==> Copied(t, p);
    if agree {
      assert forall p :: p in t.bridge.disk ==> Copied(t, p);
      assert t.server.disk.Keys == t.bridge.disk.Keys by {
        assert forall p :: p in t.server.disk <==> p in t.bridge.disk;
      }
    }
  }

  // ---- When the gateway sends no content ----

  /** The gateway's callback makes no frame but removals: no placeholder and no echo. */
  ghost predicate Silent(s: System, step: Step)
    requires Enabled(s, step)
  {
    step == Filter(Server) ==>
      var r := Filtered(s.server, s.server.events[0]);
      r.Some? ==> r.value.action.Remove?
  }

  ghost predicate SilentRun(s: System, steps: seq<Step>)
    requires CanRun(s, steps)
    decreases |steps|
  {
    steps == [] || (Silent(s, steps[0]) && SilentRun(Next(s, steps[0]), steps[1..]))
  }

  ghost predicate NothingBack(s: System) {
    && s.bridge.jail == map[]
    && (forall f :: f in s.server.batch ==> f.action.Remove?)
    && (forall f :: f in s.bridge.inbox ==> f.action.Remove?)
  }

  lemma SilentStep(s: System, step: Step)
    requires NothingBack(s) && Enabled(s, step) && Silent(s, step)
    ensures NothingBack(Next(s, step))
  {
    if step.Deliver? {
      assert s.At(step.side).inbox[0] in s.At(step.side).inbox;
    }
  }

  lemma {:induction false} SilentRunBringsNothingBack(s: System, steps: seq<Step>)
    requires NothingBack(s) && CanRun(s, steps) && SilentRun(s, steps)
    ensures NothingBack(Run(s, steps))
    decreases |steps|
  {
    hide NothingBack, Silent;
    if steps != [] {
      SilentStep(s, steps[0]);
      SilentRunBringsNothingBack(Next(s, steps[0]), steps[1..]);
    }
  }

  /** While the gateway sends no content, all of the bridge's files are copied, and only a
      removal that a restarted bridge overlooked can keep the folders apart. */
  lemma MirrorsWhileSilent(s: System, steps: seq<Step>)
    requires Initial(s) && s.server.disk == map[]
    requires CanRun(s, steps) && SoleWriterRun(s, steps) && SilentRun(s, steps) && CaughtUp(Run(s, steps))
    ensures var t := Run(s, steps);
            && (forall p :: p in t.bridge.disk ==> Copied(t, p))
            && (Mirrors(t) <==> Missed(s, {}, steps) <= t.bridge.disk.Keys)
  {
    hide Mirrors, Copied;
    assert s.At(Bridge) == s.bridge && s.At(Server) == s.server;
    SilentRunBringsNothingBack(s, steps);
    GatewayMirrorsBridge(s, steps);
  }

  // ---- When nothing vanishes and nothing is unsealed ----

  /** The gateway's callback finds its files, and the bridge's watcher starts over with every removal reported. */
  ghost predicate Attentive(s: System, step: Step)
    requires Enabled(s, step)
  {
    match step
    case Filter(side) => side.Server? ==> s.server.events[0].action.Remove? || s.server.events[0].path in s.server.disk
    case Restart(side, _) => side.Bridge? ==> s.bridge.snapshot.Keys <= s.bridge.disk.Keys
    case _ => true
  }

  ghost predicate AttentiveRun(s: System, steps: seq<Step>)
    requires CanRun(s, steps)
    decreases |steps|
  {
    steps == [] || (Attentive(s, steps[0]) && AttentiveRun(Next(s, steps[0]), steps[1..]))
  }

  /** All of the gateway's files came from the bridge. */
  ghost predicate AllReceived(n: Node) { forall p :: p in n.disk ==> Foreign(Server, n.disk[p]) }

  lemma StepKeepsReceived(s: System, step: Step)
    requires EchoFree(s) && AllReceived(s.server) && Enabled(s, step) && SoleWriter(s, step)
    ensures AllReceived(Next(s, step).server)
  {
    if step.Deliver? && step.side.Server? {
      var f := s.server.inbox[0];
      assert f in s.server.inbox && NodeOk(s.edits, Server, s.server);
      assert !f.action.Remove? ==> Own(s.edits, Bridge, f);
    }
  }

  lemma AttentiveIsSilent(s: System, step: Step)
    requires EchoFree(s) && AllReceived(s.server) && Enabled(s, step) && Attentive(s, step)
    ensures Silent(s, step)
  {
    if step == Filter(Server) {
      var e := s.server.events[0];
      assert e == Event(e.action, e.path) && e in s.server.events;
      assert NodeOk(s.edits, Server, s.server);
      if e.path in s.server.disk { assert Sealed(s.server, e.path); }
    }
  }

  lemma {:induction false} AttentiveRunIsSilent(s: System, steps: seq<Step>)
    requires EchoFree(s) && AllReceived(s.server)
    requires CanRun(s, steps) && SoleWriterRun(s, steps) && GuardedRun(s, steps) && AttentiveRun(s, steps)
    ensures SilentRun(s, steps)
    decreases |steps|
  {
    hide EchoFree, AllReceived, Attentive, Silent;
    if steps != [] {
      AttentiveIsSilent(s, steps[0]);
      StepKeepsEchoFree(s, steps[0]);
      StepKeepsReceived(s, steps[0]);
      AttentiveRunIsSilent(Next(s, steps[0]), steps[1..]);
    }
  }

  lemma AttentiveMissesNothing(s: System, step: Step)
    requires Mirrored(s, {}) && NothingBack(s) && Enabled(s, step) && Attentive(s, step)
    ensures NextMissed(s, {}, step) == {}
  {
    hide Ahead;
    if step.Restart? && step.side.Bridge? {
      forall p | p in Ahead(s).Keys ensures p in s.bridge.disk.Keys {
        assert !Pending(s.bridge, p) && InStep(s.bridge, Ahead(s), {}, p);
      }
    }
  }

  lemma {:induction false} AttentiveRunMissesNothing(s: System, steps: seq<Step>)
    requires Mirrored(s, {}) && NothingBack(s)
    requires CanRun(s, steps) && SoleWriterRun(s, steps) && SilentRun(s, steps) && AttentiveRun(s, steps)
    ensures Missed(s, {}, steps) == {}
    decreases |steps|
  {
    hide Mirrored, NothingBack, NextMissed, Attentive, Silent;
    if steps != [] {
      SilentStep(s, steps[0]);
      AttentiveMissesNothing(s, steps[0]);
      StepKeepsMirrored(s, {}, steps[0]);
      AttentiveRunMissesNothing(Next(s, steps[0]), steps[1..]);
    }
  }

  /** So while no synced file is unsealed, none vanishes under the gateway's callback and no removal is
      overlooked by a restart, the gateway mirrors the bridge whenever the bridge has caught up. */
  lemma MirrorsWithoutVanishing(s: System, steps: seq<Step>)
    requires Initial(s) && s.server.disk == map[]
    requires CanRun(s, steps) && SoleWriterRun(s, steps) && CaughtUp(Run(s, steps))
    requires GuardedRun(s, steps) && AttentiveRun(s, steps)
    ensures Mirrors(Run(s, steps))
  {
    hide Mirrors;
    assert s.At(Bridge) == s.bridge && s.At(Server) == s.server;
    InitialEchoFree(s);
    MirroredAtStart(s);
    AttentiveRunIsSilent(s, steps);
    AttentiveRunMissesNothing(s, steps);
    MirrorsWhileSilent(s, steps);
  }

  // ---- When files vanish but nothing is unsealed ----

  /** An empty file the gateway's watcher invented. */
  predicate IsPlaceholder(f: File) { f.author.Nobody? }

  /** No synced file is unsealed, and edits are newer than the last write received. */
  ghost predicate Orderly(s: System, step: Step)
    requires Enabled(s, step)
  {
    Guarded(s, step) && (step.LocalEdit? && step.path in s.bridge.jail ==> s.bridge.jail[step.path] < step.time)
  }

  ghost predicate OrderlyRun(s: System, steps: seq<Step>)
    requires CanRun(s, steps)
    decreases |steps|
  {
    steps == [] || (Orderly(s, steps[0]) && OrderlyRun(Next(s, steps[0]), steps[1..]))
  }

  /** The gateway has sent no content but placeholders, and only these are in jail on the bridge. */
  ghost predicate OnlyPlaceholdersBack(s: System) {
    && AllReceived(s.server)
    && (forall f :: f in s.server.batch ==> f.action.Remove? || f.author.Nobody?)
    && (forall f :: f in s.bridge.inbox ==> f.action.Remove? || f.author.Nobody?)
    && (forall p :: p in s.bridge.disk && InJail(s.bridge, p) ==> IsPlaceholder(s.bridge.disk[p]))
  }

  lemma OrderlyStep(s: System, step: Step)
    requires EchoFree(s) && OnlyPlaceholdersBack(s) && Enabled(s, step) && SoleWriter(s, step) && Orderly(s, step)
    ensures OnlyPlaceholdersBack(Next(s, step))
  {
    StepKeepsReceived(s, step);
    match step {
      case Filter(side) => if side.Server? { GatewayFilter(s); }
      case Deliver(side, _, _) => assert s.At(side).inbox[0] in s.At(side).inbox;
      case _ =>
    }
  }

  /** On the gateway every file is foreign: its callback skips every content event whose file
      is there, and makes a placeholder of any other. */
  lemma GatewayFilter(s: System)
    requires EchoFree(s) && AllReceived(s.server) && Enabled(s, Filter(Server))
    ensures var r := Filtered(s.server, s.server.events[0]); r.Some? ==> r.value.action.Remove? || r.value.author.Nobody?
  {
    if !s.server.events[0].action.Remove? && s.server.events[0].path in s.server.disk {
      AttentiveIsSilent(s, Filter(Server));
    }
  }

  lemma {:induction false} OrderlyRunBringsPlaceholdersBack(s: System, steps: seq<Step>)
    requires EchoFree(s) && OnlyPlaceholdersBack(s)
    requires CanRun(s, steps) && SoleWriterRun(s, steps) && OrderlyRun(s, steps)
    ensures EchoFree(Run(s, steps)) && OnlyPlaceholdersBack(Run(s, steps))
    decreases |steps|
  {
    hide EchoFree, OnlyPlaceholdersBack, Guarded;
    if steps != [] {
      OrderlyStep(s, steps[0]);
      StepKeepsEchoFree(s, steps[0]);
      OrderlyRunBringsPlaceholdersBack(Next(s, steps[0]), steps[1..]);
    }
  }

  lemma PlaceholdersAreEmpty(t: System)
    requires EchoFree(t)
    ensures forall p :: p in t.bridge.disk && IsPlaceholder(t.bridge.disk[p]) ==> t.bridge.disk[p].data == []
  {
    assert NodeOk(t.edits, Bridge, t.bridge);
  }

  /** Without echoes the files in doubt are the placeholders: the gateway holds a copy of every file of the
      bridge's user, and mirrors the bridge if and only if it holds an empty file
      wherever the bridge holds a placeholder, and nothing missed is still there. */
  lemma MirrorsUpToPlaceholders(s: System, steps: seq<Step>)
    requires Initial(s) && s.server.disk == map[]
    requires CanRun(s, steps) && SoleWriterRun(s, steps) && OrderlyRun(s, steps) && CaughtUp(Run(s, steps))
    ensures var t := Run(s, steps);
            && (forall p :: p in t.bridge.disk && !IsPlaceholder(t.bridge.disk[p]) ==> Copied(t, p))
            && (Mirrors(t) <==>
                  && Missed(s, {}, steps) <= t.bridge.disk.Keys
                  && forall p :: p in t.bridge.disk && IsPlaceholder(t.bridge.disk[p]) ==>
                       p in t.server.disk && t.server.disk[p].data == [])
  {
    hide EchoFree, Missed, Run, CanRun, SoleWriterRun, OrderlyRun, Mirrors;
    StartOrderly(s);
    OrderlyRunBringsPlaceholdersBack(s, steps);
    GatewayMirrorsBridge(s, steps);
    PlaceholdersAreEmpty(Run(s, steps));
    MirrorsCopies(Run(s, steps));
  }

  lemma StartOrderly(s: System)
    requires Initial(s) && s.server.disk == map[]
    ensures EchoFree(s) && OnlyPlaceholdersBack(s)
  {
    assert s.At(Bridge) == s.bridge && s.At(Server) == s.server;
    InitialEchoFree(s);
  }

  lemma MirrorsCopies(t: System)
    ensures Mirrors(t) ==> forall p :: p in t.bridge.disk ==> Copied(t, p)
  {
  }
}
