/** Two-way file sync between the bridge (on the user's machine) and the gateway.
    Each side polls its folder, turns changes into frames, and writes the frames
    of the other side; a "sync jail" of modification times is meant to keep a
    written file from being sent back.

    The functions here are one side's code, step by step; `Step` interleaves both
    sides. `Author` is a history variable: no function branches on it. */
module SyncProtocol {
  import opened Prelude
  import opened Scanner

  datatype Side = Bridge | Server {
    function Other(): Side { if Bridge? then Server else Bridge }
  }

  /** Who wrote a content: a user's edit, or nobody for the empty placeholder of a file that was gone. */
  datatype Author = Nobody | User(side: Side, edit: nat)

  datatype File = File(data: Data, modTime: Time, author: Author)

  datatype Frame = Frame(action: Action, path: Path, content: Data, author: Author)

  /** One side: its folder, the watcher's snapshot, the jail, the events of the
      scan being processed, the frames gathered for it, and the frames on their way here. */
  datatype Node = Node(
    disk: map<Path, File>,
    snapshot: Snapshot,
    jail: map<Path, Time>,
    events: seq<Event>,
    batch: seq<Frame>,
    inbox: seq<Frame>)

  const MAX_INLINE: nat := 10 * 1024 * 1024

  /** Files over 10 MiB travel as an empty placeholder. */
  function Payload(data: Data): Data {
    if |data| <= MAX_INLINE then data else []
  }

  function ModTimes(disk: map<Path, File>): Snapshot {
    map p | p in disk :: disk[p].modTime
  }

  /** The jail test of the watcher callback: in jail, still there, and not newer. */
  predicate Jailed(n: Node, p: Path) {
    p in n.jail && p in n.disk && !(n.disk[p].modTime > n.jail[p])
  }

  function MakeFrame(n: Node, e: Event): Frame {
    if e.action.Remove? then Frame(Remove, e.path, [], Nobody)
    else if e.path in n.disk then Frame(e.action, e.path, Payload(n.disk[e.path].data), n.disk[e.path].author)
    else Frame(e.action, e.path, [], Nobody)
  }

  /** The callback's treatment of one event. */
  function Filtered(n: Node, e: Event): Option<Frame> {
    if Jailed(n, e.path) then None else Some(MakeFrame(n, e))
  }

  function FilterNext(n: Node): Node
    requires n.events != []
  {
    match Filtered(n, n.events[0])
    case None => n.(events := n.events[1..])
    case Some(f) => n.(events := n.events[1..], batch := n.batch + [f])
  }

  /** Write (or remove) a received file; a write is jailed under its new time. */
  function ApplyFrame(n: Node, f: Frame, now: Time): Node {
    if f.action.Remove? then n.(disk := n.disk - {f.path})
    else n.(disk := n.disk[f.path := File(f.content, now, f.author)], jail := n.jail[f.path := now])
  }

  ghost predicate Idle(n: Node) { n.events == [] && n.batch == [] }

  /** A scan has recorded the file and nothing about its content is left to be handled. */
  ghost predicate Settled(n: Node, p: Path) {
    && (p in n.disk ==> p in n.snapshot && n.disk[p].modTime <= n.snapshot[p])
    && Event(Create, p) !in n.events && Event(Write, p) !in n.events
  }

  // ---- The system ----

  datatype Edit = Edit(side: Side, path: Path, data: Data)

  /** `edits` logs every local edit ever made, including the files present at the start. */
  datatype System = System(bridge: Node, server: Node, edits: seq<Edit>) {
    function At(side: Side): Node { if side.Bridge? then bridge else server }

    function With(side: Side, n: Node): System {
      if side.Bridge? then this.(bridge := n) else this.(server := n)
    }
  }

  datatype Step =
    | LocalEdit(side: Side, path: Path, data: Data, time: Time)
    | LocalRemove(side: Side, path: Path)
    | Walk(side: Side, found: seq<Event>)     // a successful scan; `found` is its batch of events
    | Filter(side: Side)                      // the callback handles the next event
    | Send(side: Side, delivered: bool)       // the gathered frames leave, or the connection fails
    | Deliver(side: Side, time: Time, ok: bool) // the next received frame is written, or that fails
    | Expire(side: Side, path: Path)          // the gateway's jail garbage collection, at any time
    | Restart(side: Side, found: seq<Event>)  // a new watcher makes its first scan

  /** The gateway starts a watcher for every web connection and its jail lives on; the
      bridge starts one with its process, which begins with an empty jail and a new connection. */
  function Restarted(side: Side, n: Node, found: seq<Event>): Node {
    var m := n.(snapshot := ModTimes(n.disk), events := found);
    if side.Server? then m else m.(jail := map[], inbox := [])
  }

  ghost predicate Enabled(s: System, step: Step) {
    var side := step.side;
    var n := s.At(side);
    match step
    case LocalEdit(_, _, _, _) => true
    case LocalRemove(_, p) => p in n.disk
    case Walk(_, found) => Idle(n) && IsDiff(n.snapshot, ModTimes(n.disk), found)
    case Filter(_) => n.events != []
    case Send(_, _) => n.events == [] && n.batch != []
    case Deliver(_, _, _) => n.inbox != []
    case Expire(_, _) => side.Server?
    case Restart(_, found) => Idle(n) && IsDiff(map[], ModTimes(n.disk), found)
  }

  ghost function Next(s: System, step: Step): System
    requires Enabled(s, step)
  {
    var side := step.side;
    var n := s.At(side);
    match step
    case LocalEdit(_, p, data, time) =>
      var file := File(data, time, User(side, |s.edits|));
      s.With(side, n.(disk := n.disk[p := file])).(edits := s.edits + [Edit(side, p, data)])
    case LocalRemove(_, p) => s.With(side, n.(disk := n.disk - {p}))
    case Walk(_, found) => s.With(side, n.(snapshot := ModTimes(n.disk), events := found))
    case Filter(_) => s.With(side, FilterNext(n))
    case Send(_, delivered) =>
      var peer := s.At(side.Other());
      var sent := if delivered then n.batch else [];
      s.With(side, n.(batch := [])).With(side.Other(), peer.(inbox := peer.inbox + sent))
    case Deliver(_, time, ok) =>
      var rest := n.(inbox := n.inbox[1..]);
      s.With(side, if ok then ApplyFrame(rest, n.inbox[0], time) else rest)
    case Expire(_, p) => s.With(side, n.(jail := n.jail - {p}))
    case Restart(_, found) => s.With(side, Restarted(side, n, found))
  }

  ghost predicate CanRun(s: System, steps: seq<Step>)
    decreases |steps|
  {
    steps == [] || (Enabled(s, steps[0]) && CanRun(Next(s, steps[0]), steps[1..]))
  }

  ghost function Run(s: System, steps: seq<Step>): System
    requires CanRun(s, steps)
    decreases |steps|
  {
    if steps == [] then s else Run(Next(s, steps[0]), steps[1..])
  }

  /** Nothing scanned, jailed or in flight; every file on disk is its side's own, logged edit. */
  ghost predicate Initial(s: System) {
    forall side: Side ::
      var n := s.At(side);
      && n.snapshot == map[] && n.jail == map[] && Idle(n) && n.inbox == []
      && forall p :: p in n.disk ==>
        var a := n.disk[p].author;
        a.User? && a.side == side && a.edit < |s.edits| && s.edits[a.edit] == Edit(side, p, n.disk[p].data)
  }

  // ---- No echo ----

  /** What a content frame sent by `side` may carry. */
  ghost predicate Own(edits: seq<Edit>, side: Side, f: Frame) {
    match f.author
    case Nobody => f.content == []
    case User(who, k) =>
      && who == side && k < |edits| && edits[k].side == side && edits[k].path == f.path
      && f.content == Payload(edits[k].data)
  }

  ghost predicate AllOwn(edits: seq<Edit>, side: Side, frames: seq<Frame>) {
    forall f :: f in frames && !f.action.Remove? ==> Own(edits, side, f)
  }

  /** Every file holds what its author wrote: the edit itself on the author's side, its payload on the other. */
  ghost predicate Genuine(edits: seq<Edit>, side: Side, p: Path, file: File) {
    match file.author
    case Nobody => file.data == []
    case User(who, k) =>
      && k < |edits| && edits[k].side == who && edits[k].path == p
      && file.data == if who == side then edits[k].data else Payload(edits[k].data)
  }

  ghost predicate InJail(n: Node, p: Path)
    requires p in n.disk
  {
    p in n.jail && n.disk[p].modTime <= n.jail[p]
  }

  /** A file that is not this side's own edit cannot pass the watcher callback while it exists. */
  ghost predicate Sealed(n: Node, p: Path) { p in n.disk && (InJail(n, p) || Settled(n, p)) }

  ghost predicate Foreign(side: Side, file: File) {
    file.author.Nobody? || file.author.side != side
  }

  ghost predicate NodeOk(edits: seq<Edit>, side: Side, n: Node) {
    && (forall p :: p in n.disk ==> Genuine(edits, side, p, n.disk[p]))
    && (forall p :: p in n.disk && Foreign(side, n.disk[p]) ==> Sealed(n, p))
    && AllOwn(edits, side, n.batch)
    && AllOwn(edits, side.Other(), n.inbox)
  }

  ghost predicate EchoFree(s: System) {
    NodeOk(s.edits, Bridge, s.bridge) && NodeOk(s.edits, Server, s.server)
  }

  lemma InitialEchoFree(s: System)
    requires Initial(s)
    ensures EchoFree(s)
  {
    assert s.At(Bridge) == s.bridge && s.At(Server) == s.server;
  }

  lemma NodeOkMoreEdits(edits: seq<Edit>, e: Edit, side: Side, n: Node)
    requires NodeOk(edits, side, n)
    ensures NodeOk(edits + [e], side, n)
  {
  }

  lemma FilterKeepsNodeOk(edits: seq<Edit>, side: Side, n: Node)
    requires NodeOk(edits, side, n) && n.events != []
    ensures NodeOk(edits, side, FilterNext(n))
  {
    var e := n.events[0];
    var m := FilterNext(n);
    assert n.events == [e] + m.events;
    if !Jailed(n, e.path) && !e.action.Remove? && e.path in n.disk {
      assert e == Event(e.action, e.path);
      assert !Foreign(side, n.disk[e.path]);
      assert Own(edits, side, MakeFrame(n, e));
    }
  }

  lemma DeliverKeepsNodeOk(edits: seq<Edit>, side: Side, n: Node, time: Time, ok: bool)
    requires NodeOk(edits, side, n) && n.inbox != []
    ensures NodeOk(edits, side, if ok then ApplyFrame(n.(inbox := n.inbox[1..]), n.inbox[0], time) else n.(inbox := n.inbox[1..]))
  {
    var rest := n.(inbox := n.inbox[1..]);
    assert n.inbox == [n.inbox[0]] + rest.inbox;
    if ok {
      var f := n.inbox[0];
      var m := ApplyFrame(rest, f, time);
      assert f in n.inbox;
      forall p | p in m.disk ensures Genuine(edits, side, p, m.disk[p]) {
        if p != f.path || f.action.Remove? { assert m.disk[p] == n.disk[p]; }
      }
      forall p | p in m.disk && Foreign(side, m.disk[p]) ensures Sealed(m, p) {
        if p != f.path || f.action.Remove? { assert m.disk[p] == n.disk[p]; assert Sealed(n, p); }
      }
    }
  }

  lemma WalkKeepsNodeOk(edits: seq<Edit>, side: Side, n: Node, found: seq<Event>)
    requires NodeOk(edits, side, n) && Idle(n) && IsDiff(n.snapshot, ModTimes(n.disk), found)
    ensures NodeOk(edits, side, n.(snapshot := ModTimes(n.disk), events := found))
  {
    var m := n.(snapshot := ModTimes(n.disk), events := found);
    forall p | p in m.disk && Foreign(side, m.disk[p]) ensures Sealed(m, p) {
      assert Sealed(n, p);
      if Settled(n, p) {
        assert Change(n.snapshot, ModTimes(n.disk), p) == None;
        assert Event(Create, p) !in found && Event(Write, p) !in found;
      }
    }
  }

  lemma EditKeepsNodeOk(edits: seq<Edit>, side: Side, n: Node, p: Path, data: Data, time: Time)
    requires NodeOk(edits, side, n)
    ensures NodeOk(edits + [Edit(side, p, data)], side, n.(disk := n.disk[p := File(data, time, User(side, |edits|))]))
  {
    NodeOkMoreEdits(edits, Edit(side, p, data), side, n);
    var m := n.(disk := n.disk[p := File(data, time, User(side, |edits|))]);
    forall q | q in m.disk && Foreign(side, m.disk[q]) ensures Sealed(m, q) {
      assert q != p && Sealed(n, q);
    }
  }

  lemma RemoveKeepsNodeOk(edits: seq<Edit>, side: Side, n: Node, p: Path)
    requires NodeOk(edits, side, n)
    ensures NodeOk(edits, side, n.(disk := n.disk - {p}))
  {
    forall q | q in n.disk - {p} && Foreign(side, n.disk[q]) ensures Sealed(n.(disk := n.disk - {p}), q) {
      assert Sealed(n, q);
    }
  }

  /** Collecting jail entries keeps a side echo-free exactly if every collected
      entry that guards a file from the other side is settled. */
  lemma CollectionKeepsNodeOk(edits: seq<Edit>, side: Side, n: Node, collected: set<Path>)
    requires NodeOk(edits, side, n)
    ensures NodeOk(edits, side, n.(jail := n.jail - collected)) <==>
            forall p :: p in collected && p in n.disk && Foreign(side, n.disk[p]) ==> Settled(n, p)
  {
    var m := n.(jail := n.jail - collected);
    forall p | p in n.disk && Foreign(side, n.disk[p]) ensures Sealed(m, p) <==> (p in collected ==> Settled(n, p)) {
      assert Sealed(n, p);
      assert Settled(m, p) <==> Settled(n, p);
    }
  }

  lemma RestartKeepsNodeOk(edits: seq<Edit>, side: Side, n: Node, found: seq<Event>)
    requires NodeOk(edits, side, n) && Idle(n) && IsDiff(map[], ModTimes(n.disk), found)
    ensures NodeOk(edits, side, Restarted(side, n, found)) <==>
            forall p :: p in n.disk && Foreign(side, n.disk[p]) ==> side.Server? && InJail(n, p)
  {
    var m := Restarted(side, n, found);
    forall p | p in m.disk ensures Event(Create, p) in m.events {
      assert Change(map[], ModTimes(n.disk), p) == Some(Create);
    }
    forall p | p in m.disk ensures Sealed(m, p) <==> side.Server? && InJail(n, p) {
      assert !Settled(m, p);
    }
    assert m.batch == n.batch && m.disk == n.disk;
    assert forall f :: f in m.inbox ==> f in n.inbox;
  }

  lemma SendKeepsEchoFree(s: System, side: Side, delivered: bool)
    requires EchoFree(s) && s.At(side).events == [] && s.At(side).batch != []
    ensures EchoFree(Next(s, Send(side, delivered)))
  {
    var n := s.At(side);
    var peer := s.At(side.Other());
    var sent := if delivered then n.batch else [];
    assert NodeOk(s.edits, side, n) && NodeOk(s.edits, side.Other(), peer);
    assert NodeOk(s.edits, side, n.(batch := []));
    assert NodeOk(s.edits, side.Other(), peer.(inbox := peer.inbox + sent));
  }

  /** The two steps that may unseal a file synced from the other side: collecting its jail
      entry before it is settled, and starting the watcher over while it is not jailed. */
  ghost predicate Guarded(s: System, step: Step) {
    var n := s.At(step.side);
    match step
    case Expire(side, p) => p in n.disk && Foreign(side, n.disk[p]) ==> Settled(n, p)
    case Restart(side, _) => forall p :: p in n.disk && Foreign(side, n.disk[p]) ==> side.Server? && InJail(n, p)
    case _ => true
  }

  ghost predicate GuardedRun(s: System, steps: seq<Step>)
    requires CanRun(s, steps)
    decreases |steps|
  {
    steps == [] || (Guarded(s, steps[0]) && GuardedRun(Next(s, steps[0]), steps[1..]))
  }

  lemma OtherNode(s: System, edits: seq<Edit>, side: Side, n: Node)
    requires NodeOk(edits, side.Other(), s.At(side.Other()))
    ensures EchoFree(s.With(side, n).(edits := edits)) <==> NodeOk(edits, side, n)
  {
  }

  /** Every step keeps both sides echo-free, with exactly two exceptions. */
  lemma StepKeepsEchoFree(s: System, step: Step)
    requires EchoFree(s) && Enabled(s, step)
    ensures EchoFree(Next(s, step)) <==> Guarded(s, step)
  {
    hide NodeOk;
    if step.Send? {
      SendKeepsEchoFree(s, step.side, step.delivered);
    } else {
      var side := step.side;
      var n := s.At(side);
      var t := Next(s, step);
      assert NodeOk(s.edits, side, n) && NodeOk(s.edits, side.Other(), s.At(side.Other()));
      match step
      case LocalEdit(_, p, data, time) =>
        NodeOkMoreEdits(s.edits, Edit(side, p, data), side.Other(), s.At(side.Other()));
        EditKeepsNodeOk(s.edits, side, n, p, data, time);
      case LocalRemove(_, p) => RemoveKeepsNodeOk(s.edits, side, n, p);
      case Walk(_, found) => WalkKeepsNodeOk(s.edits, side, n, found);
      case Filter(_) => FilterKeepsNodeOk(s.edits, side, n);
      case Deliver(_, time, ok) => DeliverKeepsNodeOk(s.edits, side, n, time, ok);
      case Expire(_, p) => CollectionKeepsNodeOk(s.edits, side, n, {p});
      case Restart(_, found) => RestartKeepsNodeOk(s.edits, side, n, found);
      OtherNode(s, t.edits, side, t.At(side));
    }
  }

  lemma {:induction false} RunKeepsEchoFree(s: System, steps: seq<Step>)
    requires EchoFree(s) && CanRun(s, steps) && GuardedRun(s, steps)
    ensures EchoFree(Run(s, steps))
    decreases |steps|
  {
    hide EchoFree;
    if steps != [] {
      StepKeepsEchoFree(s, steps[0]);
      RunKeepsEchoFree(Next(s, steps[0]), steps[1..]);
    }
  }

  /** No echo. In every state reached by guarded steps, a content frame gathered or in
      flight from `side` carries exactly the data of an edit made on `side` to that
      very path, nothing if these are more than 10 MiB, or is the empty placeholder
      of a file that had vanished. */
  lemma NoEcho(s: System, steps: seq<Step>, side: Side, f: Frame)
    requires Initial(s) && CanRun(s, steps) && GuardedRun(s, steps)
    requires f in Run(s, steps).At(side).batch || f in Run(s, steps).At(side.Other()).inbox
    requires !f.action.Remove?
    ensures f.author.Nobody? ==> f.content == []
    ensures f.author.User? ==>
              var edits := Run(s, steps).edits;
              f.author.edit < |edits| &&
              var e := edits[f.author.edit];
              && f.author.side == e.side == side && e.path == f.path
              && (|e.data| <= 10 * 1024 * 1024 ==> f.content == e.data) && (|e.data| > 10 * 1024 * 1024 ==> f.content == [])
  {
    InitialEchoFree(s);
    RunKeepsEchoFree(s, steps);
    assert Own(Run(s, steps).edits, side, f);
  }

  /** Whatever the run, a frame authored by nobody arises exactly when a content event's file is gone by
      the time the callback looks, or is itself a placeholder that has been unsealed;
      after guarded steps, exactly when it is gone. */
  lemma PlaceholderIffVanished(s: System, steps: seq<Step>, side: Side)
    requires Initial(s) && CanRun(s, steps)
    requires Run(s, steps).At(side).events != [] && !Run(s, steps).At(side).events[0].action.Remove?
    ensures var n := Run(s, steps).At(side);
            var p := n.events[0].path;
            var r := Filtered(n, n.events[0]);
            && ((r.Some? && r.value.author == Nobody) <==>
                p !in n.disk || (n.disk[p].author == Nobody && !Sealed(n, p)))
            && (GuardedRun(s, steps) ==> ((r.Some? && r.value.author == Nobody) <==> p !in n.disk))
  {
    var n := Run(s, steps).At(side);
    var e := n.events[0];
    assert e in n.events && e == Event(e.action, e.path);
    if GuardedRun(s, steps) {
      InitialEchoFree(s);
      RunKeepsEchoFree(s, steps);
      assert NodeOk(Run(s, steps).edits, side, n);
    }
  }

  /** Removals are not jailed: a removal received for a path that a scan has
      recorded is sent back by the next scan, and only for such a path. */
  lemma RemovalsAreReturned(n: Node, p: Path, found: seq<Event>, now: Time)
    requires Idle(n)
    requires var m := ApplyFrame(n, Frame(Remove, p, [], Nobody), now); IsDiff(m.snapshot, ModTimes(m.disk), found)
    ensures (exists e :: e in found && e.path == p) <==> p in n.snapshot
    ensures var m := ApplyFrame(n, Frame(Remove, p, [], Nobody), now);
            p in n.snapshot ==> Event(Remove, p) in found && Filtered(m, Event(Remove, p)) == Some(Frame(Remove, p, [], Nobody))
  {
    var m := ApplyFrame(n, Frame(Remove, p, [], Nobody), now);
    if e :| e in found && e.path == p {
      assert e == Event(e.action, p);
      assert Change(m.snapshot, ModTimes(m.disk), p) == Some(e.action);
    }
    if p in n.snapshot {
      assert Change(m.snapshot, ModTimes(m.disk), p) == Some(Remove);
      assert Event(Remove, p) in found;
    }
  }

  // ---- The callback over a whole batch ----

  function Drain(n: Node): (m: Node)
    ensures m.events == []
    decreases |n.events|
  {
    if n.events == [] then n else Drain(FilterNext(n))
  }

  /** Draining touches the events and the batch only. */
  lemma {:induction false} DrainTouches(n: Node)
    ensures Drain(n) == n.(events := [], batch := Drain(n).batch)
    decreases |n.events|
  {
    if n.events != [] {
      DrainTouches(FilterNext(n));
    }
  }

  /** Draining is a run of `Filter` steps. */
  lemma {:induction false} DrainIsFiltering(s: System, side: Side)
    ensures var steps := seq(|s.At(side).events|, _ => Filter(side));
            CanRun(s, steps) && Run(s, steps) == s.With(side, Drain(s.At(side)))
    decreases |s.At(side).events|
  {
    var n := s.At(side);
    var steps := seq(|n.events|, _ => Filter(side));
    if n.events == [] {
      assert s.With(side, n) == s;
    } else {
      var s1 := Next(s, Filter(side));
      assert s1.At(side) == FilterNext(n);
      DrainIsFiltering(s1, side);
      assert steps[1..] == seq(|FilterNext(n).events|, _ => Filter(side));
      assert s1.With(side, Drain(FilterNext(n))) == s.With(side, Drain(FilterNext(n)));
    }
  }

  lemma {:induction false} RunConcat(s: System, a: seq<Step>, b: seq<Step>)
    requires CanRun(s, a)
    ensures CanRun(s, a + b) <==> CanRun(Run(s, a), b)
    ensures CanRun(s, a + b) ==> Run(s, a + b) == Run(Run(s, a), b)
    decreases |a|
  {
    if a == [] {
      assert a + b == b;
    } else {
      assert (a + b)[1..] == a[1..] + b;
      RunConcat(Next(s, a[0]), a[1..], b);
    }
  }
}
