/** How many frames the two sides can still send once users stop editing. */
module SyncStorm {
  import opened Prelude
  import opened Scanner
  import opened SyncProtocol
  import opened SyncRuns

  // ---- Finite sums over paths ----

  ghost function Sum(paths: set<Path>, f: Path -> nat): nat {
    if paths == {} then 0 else
      var p :| p in paths;
      f(p) + Sum(paths - {p}, f)
  }

  lemma {:induction false} SumMonotone(paths: set<Path>, f: Path -> nat, g: Path -> nat)
    requires forall p :: p in paths ==> f(p) <= g(p)
    ensures Sum(paths, f) <= Sum(paths, g)
  {
    if paths != {} {
      var p :| p in paths && Sum(paths, f) == f(p) + Sum(paths - {p}, f) && Sum(paths, g) == g(p) + Sum(paths - {p}, g);
      SumMonotone(paths - {p}, f, g);
    }
  }

  /** Changing one summand changes the sum by as much. */
  lemma {:induction false} SumPoint(paths: set<Path>, f: Path -> nat, g: Path -> nat, q: Path)
    requires q in paths && forall p :: p in paths && p != q ==> f(p) <= g(p)
    ensures Sum(paths, f) + g(q) <= Sum(paths, g) + f(q)
  {
    var p :| p in paths && Sum(paths, f) == f(p) + Sum(paths - {p}, f) && Sum(paths, g) == g(p) + Sum(paths - {p}, g);
    if p == q {
      SumMonotone(paths - {p}, f, g);
    } else {
      SumPoint(paths - {p}, f, g, q);
    }
  }

  /** Raising the summands of some paths by at most two raises the sum by at most twice their number. */
  lemma {:induction false} SumRaised(paths: set<Path>, f: Path -> nat, g: Path -> nat, raised: set<Path>)
    requires forall p :: p in paths ==> f(p) <= g(p) + if p in raised then 2 else 0
    ensures Sum(paths, f) <= Sum(paths, g) + 2 * |raised|
    decreases |paths|
  {
    if paths != {} {
      var p :| p in paths && Sum(paths, f) == f(p) + Sum(paths - {p}, f) && Sum(paths, g) == g(p) + Sum(paths - {p}, g);
      if p in raised {
        SumRaised(paths - {p}, f, g, raised - {p});
      } else {
        SumRaised(paths - {p}, f, g, raised);
      }
    }
  }

  // ---- The potential ----

  function ContentFrames(frames: seq<Frame>): nat {
    if frames == [] then 0
    else (if frames[0].action.Remove? then 0 else 1) + ContentFrames(frames[1..])
  }

  lemma {:induction false} ContentFramesConcat(a: seq<Frame>, b: seq<Frame>)
    ensures ContentFrames(a + b) == ContentFrames(a) + ContentFrames(b)
  {
    if a == [] {
      assert a + b == b;
    } else {
      assert (a + b)[1..] == a[1..] + b;
      ContentFramesConcat(a[1..], b);
    }
  }

  /** Present and free to pass the jail test. */
  ghost predicate Live(n: Node, p: Path) { p in n.disk && !Jailed(n, p) }

  ghost predicate Unscanned(n: Node, p: Path) {
    Live(n, p) && (p in n.snapshot ==> n.disk[p].modTime > n.snapshot[p])
  }

  ghost predicate ContentPending(n: Node, p: Path) {
    Event(Create, p) in n.events || Event(Write, p) in n.events
  }

  /** What path `p` can still cost: its content frame and the write that frame causes (2),
      waiting for a scan or already scanned; and one removal, either of a path known on
      disk or in the snapshot, or already scanned. */
  ghost function Weight(n: Node, p: Path): nat {
    (if Unscanned(n, p) then 2 else 0)
    + (if ContentPending(n, p) && Live(n, p) then 2 else 0)
    + (if p in n.disk || p in n.snapshot then 1 else 0)
    + (if Event(Remove, p) in n.events then 1 else 0)
  }

  ghost function NodePotential(paths: set<Path>, n: Node): nat {
    Sum(paths, p => Weight(n, p)) + ContentFrames(n.batch) + ContentFrames(n.inbox)
  }

  ghost function PathsOf(n: Node): set<Path> {
    n.disk.Keys + n.snapshot.Keys + (set e | e in n.events :: e.path) + (set f | f in n.batch :: f.path) + (set f | f in n.inbox :: f.path)
  }

  ghost function Potential(paths: set<Path>, s: System): nat {
    NodePotential(paths, s.bridge) + NodePotential(paths, s.server)
  }

  ghost predicate Tracked(paths: set<Path>, s: System) {
    && PathsOf(s.bridge) <= paths && PathsOf(s.server) <= paths
    && DistinctPaths(s.bridge.events) && DistinctPaths(s.server.events)
  }

  /** Frames produced by a step, and how many of them are placeholders for a vanished file. */
  ghost function Produced(s: System, step: Step): nat
    requires Enabled(s, step)
  {
    if step.Filter? && Filtered(s.At(step.side), s.At(step.side).events[0]).Some? then 1 else 0
  }

  ghost predicate IsVanishing(s: System, step: Step)
    requires Enabled(s, step)
  {
    step.Filter? && var n := s.At(step.side); !n.events[0].action.Remove? && n.events[0].path !in n.disk
  }

  ghost function FramesProduced(s: System, steps: seq<Step>): nat
    requires CanRun(s, steps)
    decreases |steps|
  {
    if steps == [] then 0 else Produced(s, steps[0]) + FramesProduced(Next(s, steps[0]), steps[1..])
  }

  ghost function Vanishings(s: System, steps: seq<Step>): nat
    requires CanRun(s, steps)
    decreases |steps|
  {
    if steps == [] then 0
    else (if IsVanishing(s, steps[0]) then 1 else 0) + Vanishings(Next(s, steps[0]), steps[1..])
  }

  /** What a step may add to the potential. */
  ghost function Charge(s: System, step: Step): nat
    requires Enabled(s, step)
  {
    if IsVanishing(s, step) then 2
    else if step.Expire? && !Settled(s.At(step.side), step.path) then 4
    else if step.Restart? then 2 * |s.At(step.side).disk.Keys|
    else 0
  }

  ghost function Charges(s: System, steps: seq<Step>): nat
    requires CanRun(s, steps)
    decreases |steps|
  {
    if steps == [] then 0 else Charge(s, steps[0]) + Charges(Next(s, steps[0]), steps[1..])
  }

  lemma FilterWeights(n: Node)
    requires n.events != [] && DistinctPaths(n.events)
    ensures var e := n.events[0];
            var m := FilterNext(n);
            && (forall p :: p != e.path ==> Weight(m, p) == Weight(n, p))
            && Weight(n, e.path) >= Weight(m, e.path)
               + (if Jailed(n, e.path) then 0 else if e.action.Remove? then 1 else if e.path in n.disk then 2 else 0)
  {
    var e := n.events[0];
    var m := FilterNext(n);
    assert n.events == [e] + m.events;
    assert e == Event(e.action, e.path);
    assert forall a :: Event(a, e.path) !in m.events;
    assert forall a, p :: p != e.path ==> (Event(a, p) in n.events <==> Event(a, p) in m.events);
    assert forall p :: Live(n, p) <==> Live(m, p);
  }

  lemma FilterPaths(n: Node)
    requires n.events != [] && DistinctPaths(n.events)
    ensures DistinctPaths(FilterNext(n).events) && PathsOf(FilterNext(n)) <= PathsOf(n)
  {
    var e := n.events[0];
    var m := FilterNext(n);
    assert n.events == [e] + m.events;
    forall p | p in PathsOf(m) ensures p in PathsOf(n) {
      if f :| f in m.batch && f.path == p {
        assert f in n.batch || f.path == e.path;
      }
    }
  }

  lemma FilterPays(paths: set<Path>, n: Node)
    requires n.events != [] && DistinctPaths(n.events) && PathsOf(n) <= paths
    ensures var e := n.events[0];
            var sent := if Filtered(n, e).Some? then 1 else 0;
            var gone := if !e.action.Remove? && e.path !in n.disk then 2 else 0;
            sent + NodePotential(paths, FilterNext(n)) <= NodePotential(paths, n) + gone
  {
    var e := n.events[0];
    var m := FilterNext(n);
    assert e in n.events && e.path in PathsOf(n);
    FilterWeights(n);
    SumPoint(paths, p => Weight(m, p), p => Weight(n, p), e.path);
    if f :| Filtered(n, e) == Some(f) {
      ContentFramesConcat(n.batch, [f]);
      assert [f][1..] == [];
    }
  }

  lemma DeliverWeights(n: Node, f: Frame, time: Time)
    ensures var m := ApplyFrame(n, f, time);
            && (forall p :: p != f.path ==> Weight(m, p) == Weight(n, p))
            && Weight(m, f.path) <= Weight(n, f.path) + (if f.action.Remove? then 0 else 1)
  {
    var m := ApplyFrame(n, f, time);
    assert f.path in m.disk ==> Jailed(m, f.path);
    assert forall p :: p != f.path ==> (Live(n, p) <==> Live(m, p));
  }

  lemma DeliverKeepsPaths(n: Node, time: Time)
    requires n.inbox != []
    ensures n.inbox[0].path in PathsOf(n)
    ensures PathsOf(ApplyFrame(n.(inbox := n.inbox[1..]), n.inbox[0], time)) <= PathsOf(n)
  {
    assert n.inbox == [n.inbox[0]] + n.inbox[1..];
  }

  lemma DeliverPays(paths: set<Path>, n: Node, time: Time)
    requires n.inbox != [] && PathsOf(n) <= paths
    ensures var m := ApplyFrame(n.(inbox := n.inbox[1..]), n.inbox[0], time);
            NodePotential(paths, m) <= NodePotential(paths, n) && PathsOf(m) <= paths
  {
    var f := n.inbox[0];
    var rest := n.(inbox := n.inbox[1..]);
    var m := ApplyFrame(rest, f, time);
    assert n.inbox == [f] + m.inbox;
    DeliverKeepsPaths(n, time);
    DeliverWeights(rest, f, time);
    InboxHasNoWeight(n, rest);
    hide Weight, PathsOf;
    SumPoint(paths, p => Weight(m, p), p => Weight(n, p), f.path);
  }

  lemma InboxHasNoWeight(n: Node, rest: Node)
    requires rest == n.(inbox := rest.inbox)
    ensures forall p :: Weight(rest, p) == Weight(n, p)
  {
  }

  lemma WalkPays(paths: set<Path>, n: Node, found: seq<Event>)
    requires Idle(n) && IsDiff(n.snapshot, ModTimes(n.disk), found) && PathsOf(n) <= paths
    ensures var m := n.(snapshot := ModTimes(n.disk), events := found);
            NodePotential(paths, m) <= NodePotential(paths, n) && PathsOf(m) <= paths
  {
    hide Sum;
    var m := n.(snapshot := ModTimes(n.disk), events := found);
    forall p ensures Weight(m, p) <= Weight(n, p) {
      var c := Change(n.snapshot, ModTimes(n.disk), p);
      assert forall a :: Event(a, p) in found <==> c == Some(a);
    }
    SumMonotone(paths, p => Weight(m, p), p => Weight(n, p));
    forall e | e in found ensures e.path in paths {
      assert e == Event(e.action, e.path);
      assert Change(n.snapshot, ModTimes(n.disk), e.path) == Some(e.action);
    }
  }

  lemma SmallerNodePays(paths: set<Path>, n: Node, m: Node)
    requires m.batch == n.batch && m.inbox == n.inbox
    requires forall p :: Weight(m, p) <= Weight(n, p)
    ensures NodePotential(paths, m) <= NodePotential(paths, n)
  {
    SumMonotone(paths, p => Weight(m, p), p => Weight(n, p));
  }

  lemma SendPays(paths: set<Path>, n: Node, peer: Node, sent: seq<Frame>)
    requires sent == n.batch || sent == []
    ensures var m := n.(batch := []);
            var other := peer.(inbox := peer.inbox + sent);
            NodePotential(paths, m) + NodePotential(paths, other) <= NodePotential(paths, n) + NodePotential(paths, peer)
  {
    hide Sum;
    var m := n.(batch := []);
    var other := peer.(inbox := peer.inbox + sent);
    ContentFramesConcat(peer.inbox, sent);
    SumMonotone(paths, p => Weight(m, p), p => Weight(n, p));
    SumMonotone(paths, p => Weight(other, p), p => Weight(peer, p));
  }

  lemma SendKeepsPaths(paths: set<Path>, n: Node, peer: Node, sent: seq<Frame>)
    requires sent == n.batch || sent == []
    requires PathsOf(n) <= paths && PathsOf(peer) <= paths
    ensures PathsOf(n.(batch := [])) <= paths && PathsOf(peer.(inbox := peer.inbox + sent)) <= paths
  {
    forall f | f in peer.inbox + sent ensures f.path in paths {
      if f in peer.inbox { assert f.path in PathsOf(peer); } else { assert f.path in PathsOf(n); }
    }
  }

  lemma DropPays(paths: set<Path>, n: Node)
    requires n.inbox != [] && PathsOf(n) <= paths
    ensures var m := n.(inbox := n.inbox[1..]);
            NodePotential(paths, m) <= NodePotential(paths, n) && PathsOf(m) <= paths
  {
    var m := n.(inbox := n.inbox[1..]);
    assert n.inbox == [n.inbox[0]] + m.inbox;
    SumMonotone(paths, p => Weight(m, p), p => Weight(n, p));
  }

  lemma RemovePays(paths: set<Path>, n: Node, p: Path)
    requires PathsOf(n) <= paths
    ensures var m := n.(disk := n.disk - {p});
            NodePotential(paths, m) <= NodePotential(paths, n) && PathsOf(m) <= paths
  {
    var m := n.(disk := n.disk - {p});
    SmallerNodePays(paths, n, m);
  }

  lemma ExpirePays(paths: set<Path>, n: Node, p: Path)
    requires PathsOf(n) <= paths
    ensures var m := n.(jail := n.jail - {p});
            && NodePotential(paths, m) <= NodePotential(paths, n) + (if Settled(n, p) then 0 else 4)
            && PathsOf(m) <= paths
  {
    var m := n.(jail := n.jail - {p});
    if Settled(n, p) {
      SmallerNodePays(paths, n, m);
    } else {
      assert p in PathsOf(n);
      assert Weight(m, p) <= Weight(n, p) + 4;
      OneNodePays(paths, n, m, p);
    }
  }

  lemma OneNodePays(paths: set<Path>, n: Node, m: Node, p: Path)
    requires m.batch == n.batch && m.inbox == n.inbox && p in paths
    requires forall q :: q != p ==> Weight(m, q) <= Weight(n, q)
    ensures NodePotential(paths, m) + Weight(n, p) <= NodePotential(paths, n) + Weight(m, p)
  {
    hide Weight;
    SumPoint(paths, q => Weight(m, q), q => Weight(n, q), p);
  }

  lemma RestartWeights(n: Node, side: Side, found: seq<Event>, p: Path)
    requires Idle(n) && IsDiff(map[], ModTimes(n.disk), found)
    ensures Weight(Restarted(side, n, found), p) <= Weight(n, p) + if p in n.disk then 2 else 0
  {
    var none: Snapshot := map[];
    assert forall a :: Event(a, p) in found <==> Change(none, ModTimes(n.disk), p) == Some(a);
  }

  lemma RestartKeepsPaths(n: Node, side: Side, found: seq<Event>)
    requires Idle(n) && IsDiff(map[], ModTimes(n.disk), found)
    ensures PathsOf(Restarted(side, n, found)) <= PathsOf(n)
  {
    forall e | e in found ensures e.path in n.disk {
      assert e == Event(e.action, e.path);
      assert Change(map[], ModTimes(n.disk), e.path) == Some(e.action);
    }
  }

  lemma RestartPays(paths: set<Path>, n: Node, side: Side, found: seq<Event>)
    requires Idle(n) && IsDiff(map[], ModTimes(n.disk), found) && PathsOf(n) <= paths
    ensures var m := Restarted(side, n, found);
            NodePotential(paths, m) <= NodePotential(paths, n) + 2 * |n.disk.Keys| && PathsOf(m) <= paths
  {
    hide Weight, IsDiff, PathsOf;
    var m := Restarted(side, n, found);
    RestartKeepsPaths(n, side, found);
    forall p ensures Weight(m, p) <= Weight(n, p) + if p in n.disk.Keys then 2 else 0 {
      RestartWeights(n, side, found, p);
    }
    SumRaised(paths, p => Weight(m, p), p => Weight(n, p), n.disk.Keys);
  }

  /** A step that touches only its own side. */
  lemma OwnStepPays(paths: set<Path>, s: System, step: Step)
    requires Tracked(paths, s) && Enabled(s, step) && !step.LocalEdit? && !step.Send?
    ensures var m := Next(s, step).At(step.side);
            && DistinctPaths(m.events) && PathsOf(m) <= paths
            && Produced(s, step) + NodePotential(paths, m)
               <= NodePotential(paths, s.At(step.side)) + Charge(s, step)
  {
    hide NodePotential, PathsOf, ModTimes, Settled, Jailed, Change;
    var n := s.At(step.side);
    var m := Next(s, step).At(step.side);
    match step
    case LocalRemove(_, p) => RemovePays(paths, n, p);
    case Walk(_, found) => WalkPays(paths, n, found);
    case Filter(_) => FilterPays(paths, n); FilterPaths(n);
    case Deliver(_, time, ok) => if ok { DeliverPays(paths, n, time); } else { DropPays(paths, n); }
    case Expire(_, p) => ExpirePays(paths, n, p);
    case Restart(side, found) => RestartPays(paths, n, side, found);
  }

  /** Every step but a local edit pays for the frame it produces out of the potential and its charge. */
  lemma StepPays(paths: set<Path>, s: System, step: Step)
    requires Tracked(paths, s) && Enabled(s, step) && !step.LocalEdit?
    ensures Tracked(paths, Next(s, step))
    ensures Produced(s, step) + Potential(paths, Next(s, step))
            <= Potential(paths, s) + Charge(s, step)
  {
    if step.Send? {
      var n := s.At(step.side);
      SendPays(paths, n, s.At(step.side.Other()), if step.delivered then n.batch else []);
      SendKeepsPaths(paths, n, s.At(step.side.Other()), if step.delivered then n.batch else []);
    } else {
      OwnStepPays(paths, s, step);
    }
  }

  lemma {:induction false} RunPays(paths: set<Path>, s: System, steps: seq<Step>)
    requires Tracked(paths, s) && CanRun(s, steps) && forall step :: step in steps ==> !step.LocalEdit?
    ensures FramesProduced(s, steps) + Potential(paths, Run(s, steps)) <= Potential(paths, s) + Charges(s, steps)
    ensures Vanishings(s, steps) <= FramesProduced(s, steps)
    decreases |steps|
  {
    if steps != [] {
      StepPays(paths, s, steps[0]);
      RunPays(paths, Next(s, steps[0]), steps[1..]);
    }
  }

  /** No sync storm without vanishing files. From any state whose scans name each path once, the
      frames produced after the last local edit are bounded by the potential of that
      state and the charges: two for every file that vanishes between a scan and its
      callback, four for a jail entry collected too early, two for every file on disk
      when a watcher starts over. */
  lemma FramesBounded(s: System, steps: seq<Step>)
    requires DistinctPaths(s.bridge.events) && DistinctPaths(s.server.events)
    requires CanRun(s, steps) && forall step :: step in steps ==> !step.LocalEdit?
    ensures Vanishings(s, steps) <= FramesProduced(s, steps)
            <= Potential(PathsOf(s.bridge) + PathsOf(s.server), s) + Charges(s, steps)
  {
    RunPays(PathsOf(s.bridge) + PathsOf(s.server), s, steps);
  }

  /** While watchers run on and only settled entries are collected, vanishing files are all
      that is charged, so the frames are bounded exactly when the vanishings are. */
  lemma {:induction false} OnlyVanishingsCharged(s: System, steps: seq<Step>)
    requires CanRun(s, steps) && Undisturbed(s, steps)
    ensures Charges(s, steps) == 2 * Vanishings(s, steps)
    decreases |steps|
  {
    if steps != [] {
      OnlyVanishingsCharged(Next(s, steps[0]), steps[1..]);
    }
  }

  ghost predicate Undisturbed(s: System, steps: seq<Step>)
    requires CanRun(s, steps)
    decreases |steps|
  {
    steps == [] ||
    (&& !steps[0].Restart? && (steps[0].Expire? ==> Settled(s.At(steps[0].side), steps[0].path))
     && Undisturbed(Next(s, steps[0]), steps[1..]))
  }

  // ---- With vanishing files there is no bound ----

  const GHOST: Path := "scratch"
  const PLACEHOLDER := Frame(Create, GHOST, [], Nobody)
  const REMOVAL := Frame(Remove, GHOST, [], Nobody)

  ghost predicate AtRest(n: Node) { Idle(n) && n.disk == map[] && n.snapshot == map[] }

  /** A placeholder and the removal of the same path are on their way to `side`; all else is at rest. */
  ghost predicate Volley(s: System, side: Side) {
    && AtRest(s.At(side)) && AtRest(s.At(side.Other()))
    && s.At(side).inbox == [PLACEHOLDER, REMOVAL] && s.At(side.Other()).inbox == []
  }

  lemma {:induction false} ProducedConcat(s: System, a: seq<Step>, b: seq<Step>)
    requires CanRun(s, a) && CanRun(Run(s, a), b)
    ensures CanRun(s, a + b) && Run(s, a + b) == Run(Run(s, a), b)
    ensures FramesProduced(s, a + b) == FramesProduced(s, a) + FramesProduced(Run(s, a), b)
    decreases |a|
  {
    RunConcat(s, a, b);
    if a == [] {
      assert a + b == b;
    } else {
      assert (a + b)[1..] == a[1..] + b;
      ProducedConcat(Next(s, a[0]), a[1..], b);
    }
  }

  /** The callback handles its one event and the frame leaves. */
  ghost function Flush(side: Side): seq<Step> {
    [Filter(side), Send(side, true)]
  }

  lemma FlushOne(s: System, side: Side, f: Frame)
    requires |s.At(side).events| == 1 && s.At(side).batch == [] && Filtered(s.At(side), s.At(side).events[0]) == Some(f)
    ensures CanRun(s, Flush(side)) && FramesProduced(s, Flush(side)) == 1
    ensures var t := Run(s, Flush(side));
            && t.At(side) == s.At(side).(events := [])
            && t.At(side.Other()) == s.At(side.Other()).(inbox := s.At(side.Other()).inbox + [f])
  {
    var steps := Flush(side);
    var s1 := Next(s, steps[0]);
    var s2 := Next(s1, steps[1]);
    assert s1.At(side) == s.At(side).(events := [], batch := [f]);
    assert steps[1..][1..] == [] && CanRun(s1, steps[1..]);
    assert Run(s1, steps[1..]) == s2 && FramesProduced(s1, steps[1..]) == 0;
  }

  /** From a scan that saw the file until its disappearance has been reported. */
  ghost function Report(side: Side): seq<Step> {
    Flush(side) + ([Walk(side, [Event(Remove, GHOST)])] + Flush(side))
  }

  lemma ReportVanished(s: System, side: Side, t: Time)
    requires var n := s.At(side);
             n.events == [Event(Create, GHOST)] && n.batch == [] && n.disk == map[] && n.snapshot == map[GHOST := t] && n.inbox == []
    requires AtRest(s.At(side.Other())) && s.At(side.Other()).inbox == []
    ensures CanRun(s, Report(side)) && Volley(Run(s, Report(side)), side.Other()) && FramesProduced(s, Report(side)) == 2
  {
    hide Flush;
    OneDiff(GHOST, t);
    FlushOne(s, side, PLACEHOLDER);
    var s1 := Run(s, Flush(side));
    assert ModTimes(s1.At(side).disk) == map[];
    var walk := [Walk(side, [Event(Remove, GHOST)])];
    var s2 := Next(s1, walk[0]);
    assert walk[1..] == [] && CanRun(s1, walk) && Run(s1, walk) == s2 && FramesProduced(s1, walk) == 0;
    FlushOne(s2, side, REMOVAL);
    ProducedConcat(s1, walk, Flush(side));
    ProducedConcat(s, Flush(side), walk + Flush(side));
  }

  /** One side returns the volley: it writes the placeholder, scans it, and then removes it before the callback has looked. */
  ghost function Catch(side: Side): seq<Step> {
    [Deliver(side, 0, true), Walk(side, [Event(Create, GHOST)]), Deliver(side, 0, true)]
  }

  lemma CatchVolley(s: System, side: Side)
    requires Volley(s, side)
    ensures CanRun(s, Catch(side)) && FramesProduced(s, Catch(side)) == 0
    ensures var t := Run(s, Catch(side));
            var n := t.At(side);
            && n.events == [Event(Create, GHOST)] && n.batch == [] && n.disk == map[] && n.snapshot == map[GHOST := 0] && n.inbox == []
            && t.At(side.Other()) == s.At(side.Other())
  {
    OneDiff(GHOST, 0);
    var steps := Catch(side);
    var n := s.At(side);
    var s1 := Next(s, steps[0]);
    var file := File([], 0, Nobody);
    assert s1.At(side).disk == map[GHOST := file] && s1.At(side).inbox == [REMOVAL];
    assert ModTimes(s1.At(side).disk) == map[GHOST := 0];
    var s2 := Next(s1, steps[1]);
    var s3 := Next(s2, steps[2]);
    assert s3.At(side).disk == map[];
    assert CanRun(s2, steps[2..]) && CanRun(s1, steps[1..]);
    assert steps[1..][1..][1..] == [];
    assert steps[2..][1..] == [] && steps[1..][1..] == steps[2..];
    assert Run(s2, steps[2..]) == s3;
    assert Run(s1, steps[1..]) == s3;
    assert FramesProduced(s2, steps[2..]) == 0 && FramesProduced(s1, steps[1..]) == 0;
  }

  lemma ReturnVolley(s: System, side: Side)
    requires Volley(s, side)
    ensures CanRun(s, Catch(side) + Report(side))
    ensures Volley(Run(s, Catch(side) + Report(side)), side.Other())
    ensures FramesProduced(s, Catch(side) + Report(side)) == 2
  {
    CatchVolley(s, side);
    var caught := Run(s, Catch(side));
    ReportVanished(caught, side, 0);
    ProducedConcat(s, Catch(side), Report(side));
  }

  ghost function Rally(side: Side, n: nat): seq<Step>
    decreases n
  {
    if n == 0 then [] else (Catch(side) + Report(side)) + Rally(side.Other(), n - 1)
  }

  lemma {:induction false} RallyGoesOn(s: System, side: Side, n: nat)
    requires Volley(s, side)
    ensures CanRun(s, Rally(side, n)) && FramesProduced(s, Rally(side, n)) == 2 * n
    decreases n
  {
    if n > 0 {
      ReturnVolley(s, side);
      var one := Catch(side) + Report(side);
      RallyGoesOn(Run(s, one), side.Other(), n - 1);
      ProducedConcat(s, one, Rally(side.Other(), n - 1));
    }
  }

  lemma {:induction false} RallyNeedsNoUser(side: Side, n: nat)
    ensures forall step: Step :: step in Rally(side, n) ==> !step.LocalEdit? && !step.LocalRemove?
    decreases n
  {
    if n > 0 { RallyNeedsNoUser(side.Other(), n - 1); }
  }

  /** Scan a new file and delete it before the callback has looked. */
  ghost function ScratchFile(side: Side): seq<Step> {
    [Walk(side, [Event(Create, GHOST)]), LocalRemove(side, GHOST)] + Report(side)
  }

  /** A sync storm is reachable. One scratch file, seen by a scan and deleted before
      its callback runs, starts an exchange that needs no further user action and
      produces as many frames as one likes. */
  lemma ScratchFileStarts(s: System, side: Side, data: Data, t: Time, frames: nat)
    requires Initial(s) && s.At(side).disk == map[GHOST := File(data, t, User(side, 0))] && s.At(side.Other()).disk == map[]
    ensures CanRun(s, ScratchFile(side))
    ensures var s' := Run(s, ScratchFile(side));
            exists steps: seq<Step> :: CanRun(s', steps) && FramesProduced(s', steps) >= frames
                            && forall step: Step :: step in steps ==> !step.LocalEdit? && !step.LocalRemove?
  {
    hide Rally, Flush, Report, Volley;
    OneDiff(GHOST, t);
    var n := s.At(side);
    assert AtRest(s.At(side.Other())) && s.At(side.Other()).inbox == [] && n.snapshot == map[] && Idle(n) && n.inbox == [];
    assert ModTimes(n.disk) == map[GHOST := t];
    var start: seq<Step> := [Walk(side, [Event(Create, GHOST)]), LocalRemove(side, GHOST)];
    var s1 := Next(s, start[0]);
    var s2 := Next(s1, start[1]);
    assert s2.At(side).disk == map[];
    assert start[1..][1..] == [] && CanRun(s1, start[1..]);
    assert Run(s1, start[1..]) == s2;
    ReportVanished(s2, side, t);
    ProducedConcat(s, start, Report(side));
    RallyGoesOn(Run(s, ScratchFile(side)), side.Other(), frames);
    RallyNeedsNoUser(side.Other(), frames);
    assert FramesProduced(Run(s, ScratchFile(side)), Rally(side.Other(), frames)) >= frames;
  }
}
