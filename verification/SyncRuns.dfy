/** Stretches of concrete runs about a single path, from which the examples of the sync modules are put together. */
module SyncRuns {
  import opened Prelude
  import opened Scanner
  import opened SyncProtocol

  lemma OneDiff(p: Path, t: Time)
    ensures IsDiff(map[], map[p := t], [Event(Create, p)])
    ensures IsDiff(map[p := t], map[], [Event(Remove, p)])
  {
    var none: Snapshot := map[];
    var some: Snapshot := map[p := t];
    assert forall q :: Change(none, some, q) == (if q == p then Some(Create) else None);
    assert forall q :: Change(some, none, q) == (if q == p then Some(Remove) else None);
  }

  lemma OneModTime(p: Path, f: File)
    ensures ModTimes(map[p := f]) == map[p := f.modTime]
  {
  }

  lemma RunOne(s: System, step: Step)
    requires Enabled(s, step)
    ensures CanRun(s, [step]) && Run(s, [step]) == Next(s, step)
  {
    assert [step][1..] == [];
  }

  lemma RunFirst(s: System, steps: seq<Step>)
    requires steps != [] && Enabled(s, steps[0]) && CanRun(Next(s, steps[0]), steps[1..])
    ensures CanRun(s, steps) && Run(s, steps) == Run(Next(s, steps[0]), steps[1..])
  {
  }

  /** The bridge's callback handles its one event and the gateway applies the frame. */
  ghost function Forward(time: Time): seq<Step> { [Filter(Bridge), Send(Bridge, true), Deliver(Server, time, true)] }

  lemma ForwardOne(s: System, e: Event, time: Time)
    requires s.bridge.events == [e] && s.bridge.batch == [] && s.server.inbox == [] && !Jailed(s.bridge, e.path)
    ensures CanRun(s, Forward(time))
    ensures Run(s, Forward(time)) == System(s.bridge.(events := []), ApplyFrame(s.server, MakeFrame(s.bridge, e), time), s.edits)
  {
    var f := MakeFrame(s.bridge, e);
    var s1 := Next(s, Filter(Bridge));
    assert s1.bridge == s.bridge.(events := [], batch := [f]);
    var s2 := Next(s1, Send(Bridge, true));
    assert s2.server == s.server.(inbox := [f]);
    var s3 := Next(s2, Deliver(Server, time, true));
    RunOne(s2, Deliver(Server, time, true));
    RunFirst(s1, [Send(Bridge, true), Deliver(Server, time, true)]);
    assert Forward(time)[1..] == [Send(Bridge, true), Deliver(Server, time, true)];
    RunFirst(s, Forward(time));
  }

  /** The bridge's scan finds the file, and the gateway ends up with it. */
  ghost function Publish(p: Path, time: Time): seq<Step> { [Walk(Bridge, [Event(Create, p)])] + Forward(time) }

  lemma PublishOne(s: System, p: Path, f: File, time: Time)
    requires Idle(s.bridge) && s.bridge.disk == map[p := f] && s.bridge.snapshot == map[] && !Jailed(s.bridge, p)
    requires s.server.inbox == []
    ensures CanRun(s, Publish(p, time))
    ensures Run(s, Publish(p, time)) ==
            System(s.bridge.(snapshot := map[p := f.modTime]),
                   ApplyFrame(s.server, Frame(Create, p, Payload(f.data), f.author), time), s.edits)
  {
    hide Forward, ApplyFrame;
    OneDiff(p, f.modTime);
    OneModTime(p, f);
    var walk := Walk(Bridge, [Event(Create, p)]);
    var s1 := Next(s, walk);
    ForwardOne(s1, Event(Create, p), time);
    RunOne(s, walk);
    RunConcat(s, [walk], Forward(time));
  }

  /** The bridge's user removes the file, and the gateway follows. */
  ghost function Retract(p: Path, time: Time): seq<Step> {
    [LocalRemove(Bridge, p), Walk(Bridge, [Event(Remove, p)])] + Forward(time)
  }

  lemma RetractOne(s: System, p: Path, f: File, time: Time)
    requires Idle(s.bridge) && s.bridge.disk == map[p := f] && s.bridge.snapshot == map[p := f.modTime] && s.server.inbox == []
    ensures CanRun(s, Retract(p, time))
    ensures Run(s, Retract(p, time)) ==
            System(s.bridge.(disk := map[], snapshot := map[]), s.server.(disk := s.server.disk - {p}), s.edits)
  {
    hide Forward;
    OneDiff(p, f.modTime);
    var s1 := Next(s, LocalRemove(Bridge, p));
    assert s1.bridge.disk == map[] && ModTimes(s1.bridge.disk) == map[];
    var walk := Walk(Bridge, [Event(Remove, p)]);
    var s2 := Next(s1, walk);
    ForwardOne(s2, Event(Remove, p), time);
    RunOne(s1, walk);
    assert [LocalRemove(Bridge, p), walk][1..] == [walk];
    RunFirst(s, [LocalRemove(Bridge, p), walk]);
    RunConcat(s, [LocalRemove(Bridge, p), walk], Forward(time));
  }

  /** One file on the bridge, nothing on the gateway, nothing under way. */
  ghost predicate OneFile(s: System, p: Path, f: File) {
    Initial(s) && s.bridge.disk == map[p := f] && s.server.disk == map[]
  }

  lemma OneFileFacts(s: System, p: Path, f: File)
    requires OneFile(s, p, f)
    ensures s.bridge == Node(map[p := f], map[], map[], [], [], []) && s.server == Node(map[], map[], map[], [], [], [])
    ensures f.author.User? && f.author.side == Bridge
  {
    assert s.At(Bridge) == s.bridge && s.At(Server) == s.server;
    assert p in s.bridge.disk && s.bridge.disk[p] == f;
  }
}
