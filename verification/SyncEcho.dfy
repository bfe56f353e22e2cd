/** When a synced file is sent back after all: exactly while it is not sealed, which
    only an early jail collection or a restarted watcher can bring about. */
module SyncEcho {
  import opened Prelude
  import opened Scanner
  import opened SyncProtocol
  import opened SyncRuns

  /** `side` scanning, filtering and sending by itself. */
  predicate OwnRound(step: Step, side: Side) { step.side == side && (step.Walk? || step.Filter? || step.Send?) }

  /** The other side's content of path `p`, back on its way. */
  predicate IsEcho(side: Side, p: Path, f: Frame) {
    !f.action.Remove? && f.path == p && f.author.User? && f.author.side == side.Other()
  }

  predicate NoEchoIn(side: Side, p: Path, frames: seq<Frame>) { forall f <- frames :: !IsEcho(side, p, f) }

  /** With no edit and no delivery at all, `side` sends the other's content of `p` back. */
  ghost predicate Echoes(s: System, side: Side, p: Path) {
    exists steps: seq<Step> ::
      && CanRun(s, steps) && (forall step <- steps :: OwnRound(step, side))
      && !NoEchoIn(side, p, Run(s, steps).At(side).batch)
  }

  /** A file synced from the other side, whose content is not being sent back already. */
  ghost predicate Synced(s: System, side: Side, p: Path) {
    var n := s.At(side);
    && p in n.disk && n.disk[p].author.User? && n.disk[p].author.side == side.Other()
    && NoEchoIn(side, p, n.batch)
  }

  // ---- Sealed: nothing comes back ----

  lemma OwnRoundKeepsSealed(s: System, side: Side, p: Path, step: Step)
    requires Synced(s, side, p) && Sealed(s.At(side), p) && Enabled(s, step) && OwnRound(step, side)
    ensures Synced(Next(s, step), side, p) && Sealed(Next(s, step).At(side), p)
  {
    var n := s.At(side);
    match step {
      case Walk(_, found) =>
        if !InJail(n, p) {
          assert Change(n.snapshot, ModTimes(n.disk), p) == None;
          assert Event(Create, p) !in found && Event(Write, p) !in found;
        }
      case Filter(_) =>
        var e := n.events[0];
        assert e == Event(e.action, e.path) && n.events == [e] + n.events[1..];
      case _ =>
    }
  }

  lemma {:induction false} SealedStaysQuiet(s: System, side: Side, p: Path, steps: seq<Step>)
    requires Synced(s, side, p) && Sealed(s.At(side), p)
    requires CanRun(s, steps) && forall step <- steps :: OwnRound(step, side)
    ensures NoEchoIn(side, p, Run(s, steps).At(side).batch)
    decreases |steps|
  {
    if steps != [] {
      assert steps[0] in steps;
      OwnRoundKeepsSealed(s, side, p, steps[0]);
      SealedStaysQuiet(Next(s, steps[0]), side, p, steps[1..]);
    }
  }

  // ---- Not sealed: it comes back ----

  /** Any change of the folder is reported by some scan. */
  lemma {:induction false} DiffExists(prev: Snapshot, cur: Snapshot, paths: set<Path>) returns (events: seq<Event>)
    ensures DistinctPaths(events)
    ensures forall a, p :: Event(a, p) in events <==> p in paths && Change(prev, cur, p) == Some(a)
    decreases |paths|
  {
    if paths == {} {
      events := [];
    } else {
      var p := Pick(paths);
      var rest := DiffExists(prev, cur, paths - {p});
      events := if Change(prev, cur, p).Some? then rest + [Event(Change(prev, cur, p).value, p)] else rest;
      forall e | e in rest ensures e.path != p {
        assert e == Event(e.action, e.path);
      }
    }
  }

  lemma ScanExists(prev: Snapshot, cur: Snapshot) returns (events: seq<Event>)
    ensures IsDiff(prev, cur, events)
  {
    events := DiffExists(prev, cur, prev.Keys + cur.Keys);
  }

  lemma {:induction false} DrainKeepsBatch(n: Node, f: Frame)
    requires f in n.batch
    ensures f in Drain(n).batch
    decreases |n.events|
  {
    if n.events != [] {
      DrainKeepsBatch(FilterNext(n), f);
    }
  }

  lemma {:induction false} DrainEmits(n: Node, e: Event)
    requires e in n.events && !Jailed(n, e.path)
    ensures MakeFrame(n, e) in Drain(n).batch
    decreases |n.events|
  {
    var m := FilterNext(n);
    if n.events[0] == e {
      DrainKeepsBatch(m, MakeFrame(n, e));
    } else {
      assert n.events == [n.events[0]] + m.events;
      DrainEmits(m, e);
      assert MakeFrame(m, e) == MakeFrame(n, e);
    }
  }

  /** A pending content event of an unjailed synced file ends as an echo. */
  lemma PendingEchoes(s: System, side: Side, p: Path, e: Event)
    requires Synced(s, side, p) && !InJail(s.At(side), p)
    requires e in s.At(side).events && e.path == p && !e.action.Remove?
    ensures Echoes(s, side, p)
  {
    var n := s.At(side);
    DrainEmits(n, e);
    DrainIsFiltering(s, side);
    var steps: seq<Step> := seq(|n.events|, _ => Filter(side));
    assert IsEcho(side, p, MakeFrame(n, e));
    assert Run(s, steps).At(side) == Drain(n);
  }

  lemma EchoesLater(s: System, side: Side, p: Path, steps: seq<Step>)
    requires CanRun(s, steps) && (forall step <- steps :: OwnRound(step, side)) && Echoes(Run(s, steps), side, p)
    ensures Echoes(s, side, p)
  {
    var t := Run(s, steps);
    var more: seq<Step> :| CanRun(t, more) && (forall step <- more :: OwnRound(step, side))
                           && !NoEchoIn(side, p, Run(t, more).At(side).batch);
    RunConcat(s, steps, more);
    assert forall step <- steps + more :: OwnRound(step, side);
  }

  /** The next scan finds it, and the callback lets it through. */
  lemma ScanEchoes(s: System, side: Side, p: Path)
    requires Synced(s, side, p) && !InJail(s.At(side), p) && Idle(s.At(side))
    requires p in s.At(side).snapshot ==> s.At(side).disk[p].modTime > s.At(side).snapshot[p]
    ensures Echoes(s, side, p)
  {
    var n := s.At(side);
    var found := ScanExists(n.snapshot, ModTimes(n.disk));
    var action := if p in n.snapshot then Write else Create;
    assert Change(n.snapshot, ModTimes(n.disk), p) == Some(action);
    var step := Walk(side, found);
    PendingEchoes(Next(s, step), side, p, Event(action, p));
    var steps: seq<Step> := [step];
    assert steps[1..] == [] && CanRun(Next(s, step), steps[1..]);
    assert Run(s, steps) == Next(s, step);
    EchoesLater(s, side, p, steps);
  }

  lemma QuietRoundEchoes(s: System, side: Side, p: Path)
    requires Synced(s, side, p) && !InJail(s.At(side), p)
    requires p in s.At(side).snapshot ==> s.At(side).disk[p].modTime > s.At(side).snapshot[p]
    ensures Echoes(s, side, p)
  {
    var n := s.At(side);
    DrainIsFiltering(s, side);
    var filters: seq<Step> := seq(|n.events|, _ => Filter(side));
    var drained := Run(s, filters);
    var m := drained.At(side);
    DrainTouches(n);
    assert m == Drain(n);
    if !NoEchoIn(side, p, m.batch) {
    } else if m.batch == [] {
      ScanEchoes(drained, side, p);
      EchoesLater(s, side, p, filters);
    } else {
      var send: seq<Step> := [Send(side, true)];
      var sent := Next(drained, send[0]);
      assert send[1..] == [] && CanRun(sent, send[1..]) && CanRun(drained, send) && Run(drained, send) == sent;
      ScanEchoes(sent, side, p);
      EchoesLater(drained, side, p, send);
      EchoesLater(s, side, p, filters);
    }
  }

  /** Echo, exactly. In any state whatever, a side sends a synced file back by itself if and only if the file is not sealed. */
  lemma EchoesIffUnsealed(s: System, side: Side, p: Path)
    requires Synced(s, side, p)
    ensures Echoes(s, side, p) <==> !Sealed(s.At(side), p)
  {
    var n := s.At(side);
    if Sealed(n, p) {
      forall steps: seq<Step> | CanRun(s, steps) && forall step <- steps :: OwnRound(step, side)
        ensures NoEchoIn(side, p, Run(s, steps).At(side).batch)
      {
        SealedStaysQuiet(s, side, p, steps);
      }
    } else if Event(Create, p) in n.events {
      PendingEchoes(s, side, p, Event(Create, p));
    } else if Event(Write, p) in n.events {
      PendingEchoes(s, side, p, Event(Write, p));
    } else {
      QuietRoundEchoes(s, side, p);
    }
  }

  // ---- The two steps that unseal ----

  lemma SyncedInEchoFree(s: System, side: Side, p: Path)
    requires EchoFree(s) && p in s.At(side).disk && s.At(side).disk[p].author.User? && s.At(side).disk[p].author.side == side.Other()
    ensures Synced(s, side, p)
  {
    assert NodeOk(s.edits, side, s.At(side));
  }

  /** Collecting a synced file's jail entry lets the gateway send it back exactly if the file was not settled. */
  lemma CollectionEchoesIffUnsettled(s: System, p: Path)
    requires EchoFree(s) && p in s.server.disk && s.server.disk[p].author.User? && s.server.disk[p].author.side == Bridge
    ensures Enabled(s, Expire(Server, p))
    ensures Echoes(Next(s, Expire(Server, p)), Server, p) <==> !Settled(s.server, p)
  {
    var t := Next(s, Expire(Server, p));
    SyncedInEchoFree(s, Server, p);
    EchoesIffUnsealed(t, Server, p);
    assert Settled(t.server, p) <==> Settled(s.server, p);
  }

  /** Starting a watcher over sends a synced file back exactly if the file is not in jail at its
      time; the bridge's jail has gone with its process. */
  lemma RestartEchoesIffNotInJail(s: System, side: Side, found: seq<Event>, p: Path)
    requires EchoFree(s) && Enabled(s, Restart(side, found))
    requires p in s.At(side).disk && s.At(side).disk[p].author.User? && s.At(side).disk[p].author.side == side.Other()
    ensures Echoes(Next(s, Restart(side, found)), side, p) <==> !(side.Server? && InJail(s.At(side), p))
  {
    var t := Next(s, Restart(side, found));
    SyncedInEchoFree(s, side, p);
    EchoesIffUnsealed(t, side, p);
    assert Change(map[], ModTimes(s.At(side).disk), p) == Some(Create);
    assert Event(Create, p) in found;
  }

  /** An early collection is reachable: the bridge's file arrives, its entry is collected before any scan. */
  lemma EarlyExpiryEchoes(s: System, p: Path, f: File, time: Time)
    requires OneFile(s, p, f)
    ensures CanRun(s, Publish(p, time)) && GuardedRun(s, Publish(p, time))
    ensures var t := Run(s, Publish(p, time));
            Enabled(t, Expire(Server, p)) && Echoes(Next(t, Expire(Server, p)), Server, p)
  {
    hide Publish;
    OneFileFacts(s, p, f);
    PublishOne(s, p, f, time);
    PublishIsGuarded(s, p, time);
    InitialEchoFree(s);
    RunKeepsEchoFree(s, Publish(p, time));
    CollectionEchoesIffUnsettled(Run(s, Publish(p, time)), p);
  }

  lemma PublishIsGuarded(s: System, p: Path, time: Time)
    requires CanRun(s, Publish(p, time))
    ensures GuardedRun(s, Publish(p, time))
  {
    MostRunsAreGuarded(s, Publish(p, time));
  }

  lemma {:induction false} MostRunsAreGuarded(s: System, steps: seq<Step>)
    requires CanRun(s, steps) && forall step <- steps :: !step.Expire? && !step.Restart?
    ensures GuardedRun(s, steps)
    decreases |steps|
  {
    if steps != [] {
      assert steps[0] in steps;
      MostRunsAreGuarded(Next(s, steps[0]), steps[1..]);
    }
  }

  /** A file arrives at the gateway, a scan records it, the callback skips it, and its entry is collected. */
  ghost function SettleAndCollect(p: Path): seq<Step> {
    [Walk(Server, [Event(Create, p)]), Filter(Server), Expire(Server, p)]
  }

  lemma SettledOnce(s: System, p: Path, g: File)
    requires s.server == Node(map[p := g], map[], map[p := g.modTime], [], [], [])
    ensures CanRun(s, SettleAndCollect(p)) && GuardedRun(s, SettleAndCollect(p))
    ensures Run(s, SettleAndCollect(p)) == s.(server := Node(map[p := g], map[p := g.modTime], map[], [], [], []))
  {
    OneDiff(p, g.modTime);
    OneModTime(p, g);
    var steps := SettleAndCollect(p);
    var s1 := Next(s, steps[0]);
    var s2 := Next(s1, steps[1]);
    assert s2.server == s1.server.(events := []);
    assert Settled(s2.server, p);
    var s3 := Next(s2, steps[2]);
    assert s3.server.jail == map[];
    RunOne(s2, steps[2]);
    assert steps[1..][1..] == [steps[2]];
    RunFirst(s1, steps[1..]);
    RunFirst(s, steps);
    assert [steps[2]][1..] == [];
    GuardedFirst(s2, [steps[2]]);
    GuardedFirst(s1, steps[1..]);
    GuardedFirst(s, steps);
  }

  lemma GuardedFirst(s: System, steps: seq<Step>)
    requires steps != [] && Enabled(s, steps[0]) && Guarded(s, steps[0])
    requires CanRun(Next(s, steps[0]), steps[1..]) && GuardedRun(Next(s, steps[0]), steps[1..])
    ensures CanRun(s, steps) && GuardedRun(s, steps)
  {
  }

  /** Reconnecting echoes, after nothing but guarded steps: once a synced file's entry has been
      collected, a new web connection makes the gateway send the file back to the bridge. */
  lemma ReconnectEchoes(s: System, p: Path, f: File, time: Time)
    requires OneFile(s, p, f)
    ensures var steps := Publish(p, time) + SettleAndCollect(p);
            && CanRun(s, steps) && GuardedRun(s, steps)
            && var restart := Restart(Server, [Event(Create, p)]);
            && Enabled(Run(s, steps), restart) && Echoes(Next(Run(s, steps), restart), Server, p)
  {
    hide Publish, SettleAndCollect;
    OneFileFacts(s, p, f);
    PublishOne(s, p, f, time);
    PublishIsGuarded(s, p, time);
    var t := Run(s, Publish(p, time));
    var g := File(Payload(f.data), time, f.author);
    assert t.server.disk == map[p := g] && t.server.jail == map[p := time];
    SettledOnce(t, p, g);
    var steps := Publish(p, time) + SettleAndCollect(p);
    RunConcat(s, Publish(p, time), SettleAndCollect(p));
    GuardedConcat(s, Publish(p, time), SettleAndCollect(p));
    InitialEchoFree(s);
    RunKeepsEchoFree(s, steps);
    OneDiff(p, time);
    OneModTime(p, g);
    RestartEchoesIffNotInJail(Run(s, steps), Server, [Event(Create, p)], p);
  }

  lemma {:induction false} GuardedConcat(s: System, a: seq<Step>, b: seq<Step>)
    requires CanRun(s, a) && GuardedRun(s, a) && CanRun(Run(s, a), b) && GuardedRun(Run(s, a), b)
    ensures CanRun(s, a + b) && GuardedRun(s, a + b)
    decreases |a|
  {
    RunConcat(s, a, b);
    if a == [] {
      assert a + b == b;
    } else {
      assert (a + b)[1..] == a[1..] + b;
      GuardedConcat(Next(s, a[0]), a[1..], b);
    }
  }
}
