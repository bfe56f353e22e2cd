/** Runs with one writer after which the folders disagree: a file vanishes under the
    gateway's callback and its placeholder reaches the bridge, or a reconnect makes
    the gateway send back what the bridge's user has just replaced. */
module SyncDivergence {
  import opened Prelude
  import opened Scanner
  import opened SyncProtocol
  import opened SyncRuns
  import opened SyncEcho
  import opened SyncMirror

  /** Steps any single writer may make in any state. */
  predicate Plain(step: Step) {
    match step
    case LocalEdit(_, _, _, _) => false
    case LocalRemove(side, _) => side.Bridge?
    case Send(_, delivered) => delivered
    case Deliver(_, _, ok) => ok
    case _ => true
  }

  lemma {:induction false} PlainRun(s: System, steps: seq<Step>)
    requires CanRun(s, steps) && forall step <- steps :: Plain(step)
    ensures SoleWriterRun(s, steps)
    decreases |steps|
  {
    if steps != [] {
      assert steps[0] in steps;
      PlainRun(Next(s, steps[0]), steps[1..]);
    }
  }

  lemma {:induction false} SoleWriterConcat(s: System, a: seq<Step>, b: seq<Step>)
    requires CanRun(s, a) && SoleWriterRun(s, a) && CanRun(Run(s, a), b) && SoleWriterRun(Run(s, a), b)
    ensures CanRun(s, a + b) && SoleWriterRun(s, a + b) && Run(s, a + b) == Run(Run(s, a), b)
    decreases |a|
  {
    RunConcat(s, a, b);
    if a == [] {
      assert a + b == b;
    } else {
      assert (a + b)[1..] == a[1..] + b;
      SoleWriterConcat(Next(s, a[0]), a[1..], b);
    }
  }

  /** The gateway scans the file, and it is gone when the callback looks; the placeholder leaves. */
  ghost function Vanish(p: Path, t1: Time): seq<Step> {
    Publish(p, t1) + ([Walk(Server, [Event(Create, p)])] + (Retract(p, t1) + [Filter(Server), Send(Server, true)]))
  }

  lemma GatewayLooks(s: System, p: Path, t1: Time)
    requires s.server == Node(map[], map[p := t1], map[p := t1], [Event(Create, p)], [], []) && s.bridge.inbox == []
    ensures var steps := [Filter(Server), Send(Server, true)];
            && CanRun(s, steps)
            && Run(s, steps) == System(s.bridge.(inbox := [Frame(Create, p, [], Nobody)]), s.server.(events := []), s.edits)
  {
    var ph := Frame(Create, p, [], Nobody);
    var steps := [Filter(Server), Send(Server, true)];
    var s1 := Next(s, Filter(Server));
    assert s1.server == s.server.(events := [], batch := [ph]);
    RunOne(s1, Send(Server, true));
    RunFirst(s, steps);
  }

  lemma VanishOne(s: System, p: Path, f: File, t1: Time)
    requires OneFile(s, p, f)
    ensures CanRun(s, Vanish(p, t1)) && SoleWriterRun(s, Vanish(p, t1))
    ensures Run(s, Vanish(p, t1)) == System(Node(map[], map[], map[], [], [], [Frame(Create, p, [], Nobody)]),
                                            Node(map[], map[p := t1], map[p := t1], [], [], []), s.edits)
  {
    hide Publish, Retract;
    OneFileFacts(s, p, f);
    PublishOne(s, p, f, t1);
    var s1 := Run(s, Publish(p, t1));
    var g := File(Payload(f.data), t1, f.author);
    assert s1.server == Node(map[p := g], map[], map[p := t1], [], [], []);
    OneDiff(p, t1);
    OneModTime(p, g);
    var walk := Walk(Server, [Event(Create, p)]);
    RunOne(s1, walk);
    var s2 := Next(s1, walk);
    RetractOne(s2, p, f, t1);
    var s3 := Run(s2, Retract(p, t1));
    assert s3.server == Node(map[], map[p := t1], map[p := t1], [Event(Create, p)], [], []);
    GatewayLooks(s3, p, t1);
    var look := [Filter(Server), Send(Server, true)];
    RunConcat(s2, Retract(p, t1), look);
    RunConcat(s1, [walk], Retract(p, t1) + look);
    RunConcat(s, Publish(p, t1), [walk] + (Retract(p, t1) + look));
    VanishIsPlain(p, t1);
    PlainRun(s, Vanish(p, t1));
  }

  lemma VanishIsPlain(p: Path, t: Time)
    ensures forall step <- Publish(p, t) :: Plain(step)
    ensures forall step <- Retract(p, t) :: Plain(step)
    ensures forall step <- Vanish(p, t) :: Plain(step)
  {
  }

  /** The bridge writes the placeholder, scans it and skips it. */
  ghost function Take(p: Path, t: Time): seq<Step> { [Deliver(Bridge, t, true), Walk(Bridge, [Event(Create, p)]), Filter(Bridge)] }

  lemma TakeOne(s: System, p: Path, t: Time)
    requires s.bridge == Node(map[], map[], map[], [], [], [Frame(Create, p, [], Nobody)])
    ensures CanRun(s, Take(p, t)) && SoleWriterRun(s, Take(p, t))
    ensures Run(s, Take(p, t)) == s.(bridge := Node(map[p := File([], t, Nobody)], map[p := t], map[p := t], [], [], []))
  {
    OneDiff(p, t);
    OneModTime(p, File([], t, Nobody));
    var s1 := Next(s, Deliver(Bridge, t, true));
    assert s1.bridge == Node(map[p := File([], t, Nobody)], map[], map[p := t], [], [], []);
    var walk := Walk(Bridge, [Event(Create, p)]);
    var s2 := Next(s1, walk);
    assert Jailed(s2.bridge, p);
    RunOne(s2, Filter(Bridge));
    assert Take(p, t)[1..] == [walk, Filter(Bridge)] && [walk, Filter(Bridge)][1..] == [Filter(Bridge)];
    RunFirst(s1, [walk, Filter(Bridge)]);
    RunFirst(s, Take(p, t));
    PlainRun(s, Take(p, t));
  }

  /** A file the bridge's user has deleted comes back to the bridge as an empty one. */
  lemma DeletedFileComesBack(s: System, p: Path, f: File, t1: Time, t2: Time)
    requires OneFile(s, p, f)
    ensures var steps := Vanish(p, t1) + Take(p, t2);
            && CanRun(s, steps) && SoleWriterRun(s, steps) && CaughtUp(Run(s, steps))
            && Run(s, steps).bridge.disk == map[p := File([], t2, Nobody)] && Run(s, steps).server.disk == map[]
            && !Mirrors(Run(s, steps))
  {
    hide Vanish, Take;
    VanishOne(s, p, f, t1);
    TakeOne(Run(s, Vanish(p, t1)), p, t2);
    SoleWriterConcat(s, Vanish(p, t1), Take(p, t2));
    OneModTime(p, File([], t2, Nobody));
    assert p in Run(s, Vanish(p, t1) + Take(p, t2)).bridge.disk;
  }

  /** The bridge's user creates the file anew, and the gateway gets it. */
  ghost function Recreate(p: Path, data: Data, t2: Time, t3: Time): seq<Step> { [LocalEdit(Bridge, p, data, t2)] + Publish(p, t3) }

  lemma RecreateOne(s: System, p: Path, data: Data, t1: Time, t2: Time, t3: Time)
    requires s.bridge == Node(map[], map[], map[], [], [], s.bridge.inbox)
    requires s.server == Node(map[], map[p := t1], map[p := t1], [], [], [])
    ensures CanRun(s, Recreate(p, data, t2, t3)) && SoleWriterRun(s, Recreate(p, data, t2, t3))
    ensures var u := User(Bridge, |s.edits|);
            var t := Run(s, Recreate(p, data, t2, t3));
            && t.bridge == Node(map[p := File(data, t2, u)], map[p := t2], map[], [], [], s.bridge.inbox)
            && t.server == Node(map[p := File(Payload(data), t3, u)], map[p := t1], map[p := t3], [], [], [])
  {
    hide Publish;
    var edit := LocalEdit(Bridge, p, data, t2);
    RunOne(s, edit);
    var s1 := Next(s, edit);
    var g := File(data, t2, User(Bridge, |s.edits|));
    assert s1.bridge.disk == map[p := g];
    PublishOne(s1, p, g, t3);
    VanishIsPlain(p, t3);
    PlainRun(s1, Publish(p, t3));
    assert [edit][1..] == [];
    SoleWriterConcat(s, [edit], Publish(p, t3));
  }

  /** The placeholder arrives over the new file. */
  ghost function Overwrite(p: Path, t4: Time): seq<Step> { [Deliver(Bridge, t4, true), Walk(Bridge, [Event(Write, p)]), Filter(Bridge)] }

  lemma OverwriteOne(s: System, p: Path, g: File, t4: Time)
    requires s.bridge == Node(map[p := g], map[p := g.modTime], map[], [], [], [Frame(Create, p, [], Nobody)]) && g.modTime < t4
    ensures CanRun(s, Overwrite(p, t4)) && SoleWriterRun(s, Overwrite(p, t4))
    ensures Run(s, Overwrite(p, t4)) == s.(bridge := Node(map[p := File([], t4, Nobody)], map[p := t4], map[p := t4], [], [], []))
  {
    OneWrite(p, g.modTime, t4);
    OneModTime(p, File([], t4, Nobody));
    var s1 := Next(s, Deliver(Bridge, t4, true));
    assert s1.bridge == Node(map[p := File([], t4, Nobody)], map[p := g.modTime], map[p := t4], [], [], []);
    var walk := Walk(Bridge, [Event(Write, p)]);
    var s2 := Next(s1, walk);
    assert Jailed(s2.bridge, p);
    RunOne(s2, Filter(Bridge));
    assert Overwrite(p, t4)[1..] == [walk, Filter(Bridge)] && [walk, Filter(Bridge)][1..] == [Filter(Bridge)];
    RunFirst(s1, [walk, Filter(Bridge)]);
    RunFirst(s, Overwrite(p, t4));
    PlainRun(s, Overwrite(p, t4));
  }

  lemma OneWrite(p: Path, before: Time, after: Time)
    requires before < after
    ensures IsDiff(map[p := before], map[p := after], [Event(Write, p)])
  {
    var prev: Snapshot := map[p := before];
    var cur: Snapshot := map[p := after];
    assert forall q :: Change(prev, cur, q) == (if q == p then Some(Write) else None);
  }

  /** A file created anew is lost to the placeholder of the old one: the bridge ends with an empty file,
      the gateway with the content, and the jail keeps either from being told. */
  lemma RecreatedFileIsLost(s: System, p: Path, f: File, data: Data, t1: Time, t2: Time, t3: Time, t4: Time)
    requires OneFile(s, p, f) && t2 < t4 && Payload(data) != []
    ensures var steps := Vanish(p, t1) + (Recreate(p, data, t2, t3) + Overwrite(p, t4));
            && CanRun(s, steps) && SoleWriterRun(s, steps) && CaughtUp(Run(s, steps))
            && Run(s, steps).bridge.disk == map[p := File([], t4, Nobody)]
            && p in Run(s, steps).server.disk && Run(s, steps).server.disk[p].data == Payload(data)
            && !Mirrors(Run(s, steps))
  {
    hide Vanish, Recreate, Overwrite;
    VanishOne(s, p, f, t1);
    var s1 := Run(s, Vanish(p, t1));
    RecreateOne(s1, p, data, t1, t2, t3);
    var s2 := Run(s1, Recreate(p, data, t2, t3));
    OverwriteOne(s2, p, File(data, t2, User(Bridge, |s1.edits|)), t4);
    SoleWriterConcat(s1, Recreate(p, data, t2, t3), Overwrite(p, t4));
    SoleWriterConcat(s, Vanish(p, t1), Recreate(p, data, t2, t3) + Overwrite(p, t4));
    OneModTime(p, File([], t4, Nobody));
    assert p in Run(s2, Overwrite(p, t4)).bridge.disk;
  }

  /** The user removes the new file, the placeholder hides the removal from the callback, and the user removes that too. */
  ghost function Hide(p: Path, t4: Time): seq<Step> {
    [LocalRemove(Bridge, p), Walk(Bridge, [Event(Remove, p)]), Deliver(Bridge, t4, true), Filter(Bridge), LocalRemove(Bridge, p)]
  }

  lemma HideOne(s: System, p: Path, g: File, t4: Time)
    requires s.bridge == Node(map[p := g], map[p := g.modTime], map[], [], [], [Frame(Create, p, [], Nobody)])
    ensures CanRun(s, Hide(p, t4)) && SoleWriterRun(s, Hide(p, t4))
    ensures Run(s, Hide(p, t4)) == s.(bridge := Node(map[], map[], map[p := t4], [], [], []))
  {
    var start: seq<Step> := [LocalRemove(Bridge, p), Walk(Bridge, [Event(Remove, p)]), Deliver(Bridge, t4, true)];
    var rest: seq<Step> := [Filter(Bridge), LocalRemove(Bridge, p)];
    HideStarts(s, p, g, t4);
    HideEnds(Run(s, start), p, t4);
    RunConcat(s, start, rest);
    assert start + rest == Hide(p, t4);
    PlainRun(s, Hide(p, t4));
  }

  lemma HideStarts(s: System, p: Path, g: File, t4: Time)
    requires s.bridge == Node(map[p := g], map[p := g.modTime], map[], [], [], [Frame(Create, p, [], Nobody)])
    ensures var steps: seq<Step> := [LocalRemove(Bridge, p), Walk(Bridge, [Event(Remove, p)]), Deliver(Bridge, t4, true)];
            && CanRun(s, steps)
            && Run(s, steps) == s.(bridge := Node(map[p := File([], t4, Nobody)], map[], map[p := t4], [Event(Remove, p)], [], []))
  {
    OneDiff(p, g.modTime);
    var steps: seq<Step> := [LocalRemove(Bridge, p), Walk(Bridge, [Event(Remove, p)]), Deliver(Bridge, t4, true)];
    var s1 := Next(s, steps[0]);
    assert (map[p := g] - {p}) == map[] && ModTimes(map[]) == map[];
    assert s1.bridge == Node(map[], map[p := g.modTime], map[], [], [], s.bridge.inbox);
    var s2 := Next(s1, steps[1]);
    RunOne(s2, steps[2]);
    assert steps[1..][1..] == [steps[2]];
    RunFirst(s1, steps[1..]);
    RunFirst(s, steps);
  }

  lemma HideEnds(s: System, p: Path, t4: Time)
    requires s.bridge == Node(map[p := File([], t4, Nobody)], map[], map[p := t4], [Event(Remove, p)], [], [])
    ensures var steps: seq<Step> := [Filter(Bridge), LocalRemove(Bridge, p)];
            CanRun(s, steps) && Run(s, steps) == s.(bridge := Node(map[], map[], map[p := t4], [], [], []))
  {
    var steps: seq<Step> := [Filter(Bridge), LocalRemove(Bridge, p)];
    var s1 := Next(s, steps[0]);
    assert s1.bridge == s.bridge.(events := []);
    assert (map[p := File([], t4, Nobody)] - {p}) == map[];
    RunOne(s1, steps[1]);
    RunFirst(s, steps);
  }

  /** A removal can be missed for good: the bridge holds nothing, not even a placeholder, and the gateway keeps the file. */
  lemma MissedRemovalStays(s: System, p: Path, f: File, data: Data, t1: Time, t2: Time, t3: Time, t4: Time)
    requires OneFile(s, p, f)
    ensures var steps := Vanish(p, t1) + (Recreate(p, data, t2, t3) + Hide(p, t4));
            && CanRun(s, steps) && SoleWriterRun(s, steps) && CaughtUp(Run(s, steps))
            && Run(s, steps).bridge.disk == map[] && p in Run(s, steps).server.disk
            && p in Missed(s, {}, steps)
  {
    hide Vanish, Recreate, Hide;
    VanishOne(s, p, f, t1);
    var s1 := Run(s, Vanish(p, t1));
    RecreateOne(s1, p, data, t1, t2, t3);
    var s2 := Run(s1, Recreate(p, data, t2, t3));
    HideOne(s2, p, File(data, t2, User(Bridge, |s1.edits|)), t4);
    SoleWriterConcat(s1, Recreate(p, data, t2, t3), Hide(p, t4));
    var steps := Vanish(p, t1) + (Recreate(p, data, t2, t3) + Hide(p, t4));
    SoleWriterConcat(s, Vanish(p, t1), Recreate(p, data, t2, t3) + Hide(p, t4));
    assert ModTimes(Run(s, steps).bridge.disk) == map[];
    hide Missed;
    GatewayMirrorsBridge(s, steps);
  }

  // ---- A reconnect ----

  lemma AttentiveFirst(s: System, steps: seq<Step>)
    requires steps != [] && Enabled(s, steps[0]) && Attentive(s, steps[0])
    requires CanRun(Next(s, steps[0]), steps[1..]) && AttentiveRun(Next(s, steps[0]), steps[1..])
    ensures CanRun(s, steps) && AttentiveRun(s, steps)
  {
  }

  lemma {:induction false} MostRunsAreAttentive(s: System, steps: seq<Step>)
    requires CanRun(s, steps) && forall step <- steps :: step != Filter(Server) && !step.Restart?
    ensures AttentiveRun(s, steps)
    decreases |steps|
  {
    if steps != [] {
      assert steps[0] in steps && forall step <- steps[1..] :: step in steps;
      MostRunsAreAttentive(Next(s, steps[0]), steps[1..]);
    }
  }

  lemma {:induction false} AttentiveConcat(s: System, a: seq<Step>, b: seq<Step>)
    requires CanRun(s, a) && AttentiveRun(s, a) && CanRun(Run(s, a), b) && AttentiveRun(Run(s, a), b)
    ensures CanRun(s, a + b) && AttentiveRun(s, a + b)
    decreases |a|
  {
    RunConcat(s, a, b);
    if a == [] {
      assert a + b == b;
    } else {
      assert (a + b)[1..] == a[1..] + b;
      AttentiveConcat(Next(s, a[0]), a[1..], b);
    }
  }

  /** One writer, and the gateway's callback finds its files. */
  ghost predicate Ordinary(s: System, steps: seq<Step>) {
    CanRun(s, steps) && SoleWriterRun(s, steps) && AttentiveRun(s, steps)
  }

  lemma OrdinaryConcat(s: System, a: seq<Step>, b: seq<Step>)
    requires Ordinary(s, a) && Ordinary(Run(s, a), b)
    ensures Ordinary(s, a + b) && Run(s, a + b) == Run(Run(s, a), b)
  {
    SoleWriterConcat(s, a, b);
    AttentiveConcat(s, a, b);
  }

  /** The bridge's user edits the synced file, and the frame leaves. */
  ghost function Revise(p: Path, data: Data, t2: Time): seq<Step> {
    [LocalEdit(Bridge, p, data, t2), Walk(Bridge, [Event(Write, p)]), Filter(Bridge), Send(Bridge, true)]
  }

  lemma ReviseOne(s: System, p: Path, f: File, data: Data, t2: Time)
    requires s.bridge == Node(map[p := f], map[p := f.modTime], map[], [], [], []) && s.server.inbox == [] && f.modTime < t2
    ensures Ordinary(s, Revise(p, data, t2))
    ensures var g := File(data, t2, User(Bridge, |s.edits|));
            Run(s, Revise(p, data, t2)) == System(Node(map[p := g], map[p := t2], map[], [], [], []),
                                                  s.server.(inbox := [Frame(Write, p, Payload(data), g.author)]),
                                                  s.edits + [Edit(Bridge, p, data)])
  {
    hide Payload, AttentiveRun, SoleWriterRun;
    var g := File(data, t2, User(Bridge, |s.edits|));
    var steps := Revise(p, data, t2);
    var s1 := Next(s, steps[0]);
    assert s1.bridge.disk == map[p := g];
    var rest: seq<Step> := [Walk(Bridge, [Event(Write, p)]), Filter(Bridge), Send(Bridge, true)];
    assert steps[1..] == rest;
    ReviseSent(s1, p, g, f.modTime);
    RunFirst(s, steps);
    PlainRun(s1, rest);
    SoleWriterFirst(s, steps);
    MostRunsAreAttentive(s, steps);
  }

  lemma ReviseSent(s: System, p: Path, g: File, t: Time)
    requires s.bridge == Node(map[p := g], map[p := t], map[], [], [], []) && s.server.inbox == [] && t < g.modTime
    ensures var steps: seq<Step> := [Walk(Bridge, [Event(Write, p)]), Filter(Bridge), Send(Bridge, true)];
            && CanRun(s, steps)
            && Run(s, steps) == System(Node(map[p := g], map[p := g.modTime], map[], [], [], []),
                                       s.server.(inbox := [Frame(Write, p, Payload(g.data), g.author)]), s.edits)
  {
    hide Payload;
    var steps: seq<Step> := [Walk(Bridge, [Event(Write, p)]), Filter(Bridge), Send(Bridge, true)];
    OneWrite(p, t, g.modTime);
    OneModTime(p, g);
    var s1 := Next(s, steps[0]);
    var s2 := Next(s1, steps[1]);
    assert s2.bridge == s1.bridge.(events := [], batch := [Frame(Write, p, Payload(g.data), g.author)]);
    RunOne(s2, steps[2]);
    assert steps[1..][1..] == [steps[2]];
    RunFirst(s1, steps[1..]);
    RunFirst(s, steps);
  }

  lemma SoleWriterFirst(s: System, steps: seq<Step>)
    requires steps != [] && Enabled(s, steps[0]) && SoleWriter(s, steps[0])
    requires CanRun(Next(s, steps[0]), steps[1..]) && SoleWriterRun(Next(s, steps[0]), steps[1..])
    ensures CanRun(s, steps) && SoleWriterRun(s, steps)
  {
  }

  /** A web client reconnects: the new watcher finds the file and sends it. */
  ghost function Reconnect(p: Path): seq<Step> { [Restart(Server, [Event(Create, p)]), Filter(Server), Send(Server, true)] }

  lemma ReconnectOne(s: System, p: Path, g: File)
    requires s.server == Node(map[p := g], map[p := g.modTime], map[], [], [], s.server.inbox) && s.bridge.inbox == []
    ensures Ordinary(s, Reconnect(p))
    ensures Run(s, Reconnect(p)) == s.(bridge := s.bridge.(inbox := [Frame(Create, p, Payload(g.data), g.author)]))
  {
    var steps := Reconnect(p);
    OneDiff(p, g.modTime);
    OneModTime(p, g);
    var s1 := Next(s, steps[0]);
    var s2 := Next(s1, steps[1]);
    assert s2.server == s.server.(batch := [Frame(Create, p, Payload(g.data), g.author)]);
    RunOne(s2, steps[2]);
    assert steps[1..][1..] == [steps[2]];
    RunFirst(s1, steps[1..]);
    RunFirst(s, steps);
    PlainRun(s, steps);
    AttentiveFirst(s2, [steps[2]]);
    AttentiveFirst(s1, steps[1..]);
    AttentiveFirst(s, steps);
  }

  /** The two frames cross, and the bridge takes what it receives for synced. */
  ghost function Cross(p: Path, t3: Time, t4: Time): seq<Step> {
    [Deliver(Server, t3, true), Deliver(Bridge, t4, true), Walk(Bridge, [Event(Write, p)]), Filter(Bridge)]
  }

  lemma CrossOne(s: System, p: Path, g: File, sent: Frame, back: Frame, t3: Time, t4: Time)
    requires s.bridge == Node(map[p := g], map[p := g.modTime], map[], [], [], [back]) && g.modTime < t4
    requires s.server.inbox == [sent] && sent.path == p && back.path == p && !sent.action.Remove? && !back.action.Remove?
    ensures Ordinary(s, Cross(p, t3, t4))
    ensures Run(s, Cross(p, t3, t4)) ==
            System(Node(map[p := File(back.content, t4, back.author)], map[p := t4], map[p := t4], [], [], []),
                   ApplyFrame(s.server.(inbox := []), sent, t3), s.edits)
  {
    var steps := Cross(p, t3, t4);
    var s1 := Next(s, steps[0]);
    assert s1.server == ApplyFrame(s.server.(inbox := []), sent, t3);
    var s2 := Next(s1, steps[1]);
    var h := File(back.content, t4, back.author);
    assert s2.bridge == Node(map[p := h], map[p := g.modTime], map[p := t4], [], [], []);
    OneWrite(p, g.modTime, t4);
    OneModTime(p, h);
    var s3 := Next(s2, steps[2]);
    assert Jailed(s3.bridge, p);
    RunOne(s3, steps[3]);
    assert steps[1..][1..][1..] == [steps[3]];
    RunFirst(s2, steps[1..][1..]);
    RunFirst(s1, steps[1..]);
    RunFirst(s, steps);
    PlainRun(s, steps);
    MostRunsAreAttentive(s, steps);
  }

  lemma SyncIsOrdinary(s: System, p: Path, t1: Time)
    requires CanRun(s, Publish(p, t1)) && CanRun(Run(s, Publish(p, t1)), SettleAndCollect(p))
    requires p in Run(s, Publish(p, t1)).server.disk
    ensures Ordinary(s, Publish(p, t1)) && Ordinary(Run(s, Publish(p, t1)), SettleAndCollect(p))
  {
    VanishIsPlain(p, t1);
    PlainRun(s, Publish(p, t1));
    assert forall step <- Publish(p, t1) :: step != Filter(Server) && !step.Restart?;
    MostRunsAreAttentive(s, Publish(p, t1));
    var s1 := Run(s, Publish(p, t1));
    var steps := SettleAndCollect(p);
    PlainRun(s1, steps);
    var s2 := Next(s1, steps[0]);
    MostRunsAreAttentive(Next(s2, steps[1]), steps[1..][1..]);
    AttentiveFirst(s2, steps[1..]);
    AttentiveFirst(s1, steps);
  }

  /** The bridge's file is on the gateway, scanned there and no longer in jail, and an edit of it is on its way. */
  ghost function EditUnderWay(p: Path, data: Data, t1: Time, t2: Time): seq<Step> {
    Publish(p, t1) + (SettleAndCollect(p) + Revise(p, data, t2))
  }

  lemma EditSent(s: System, p: Path, f: File, data: Data, t1: Time, t2: Time)
    requires OneFile(s, p, f) && f.modTime < t2
    ensures Ordinary(s, EditUnderWay(p, data, t1, t2))
    ensures var edit := File(data, t2, User(Bridge, |s.edits|));
            var g := File(Payload(f.data), t1, f.author);
            Run(s, EditUnderWay(p, data, t1, t2)) ==
            System(Node(map[p := edit], map[p := t2], map[], [], [], []),
                   Node(map[p := g], map[p := t1], map[], [], [], [Frame(Write, p, Payload(data), edit.author)]),
                   s.edits + [Edit(Bridge, p, data)])
  {
    hide Publish, SettleAndCollect, Revise, Ordinary, Payload;
    OneFileFacts(s, p, f);
    PublishOne(s, p, f, t1);
    var s1 := Run(s, Publish(p, t1));
    var g := File(Payload(f.data), t1, f.author);
    assert s1.server == Node(map[p := g], map[], map[p := t1], [], [], []);
    SettledOnce(s1, p, g);
    var s2 := Run(s1, SettleAndCollect(p));
    ReviseOne(s2, p, f, data, t2);
    SyncIsOrdinary(s, p, t1);
    OrdinaryConcat(s1, SettleAndCollect(p), Revise(p, data, t2));
    OrdinaryConcat(s, Publish(p, t1), SettleAndCollect(p) + Revise(p, data, t2));
  }

  ghost function LostEdit(p: Path, data: Data, t1: Time, t2: Time, t3: Time, t4: Time): seq<Step> {
    EditUnderWay(p, data, t1, t2) + (Reconnect(p) + Cross(p, t3, t4))
  }

  /** A reconnect can undo the user's edit, though no file vanishes and no removal is overlooked. The file
      has been synced and its jail entry collected; while the edit is on its way a
      web client reconnects, and the gateway sends its old content back. The bridge
      ends with the old content, the gateway with the new one, and both files are in jail. */
  lemma ReconnectLosesEdit(s: System, p: Path, f: File, data: Data, t1: Time, t2: Time, t3: Time, t4: Time)
    requires OneFile(s, p, f) && f.modTime < t2 < t4 && Payload(data) != Payload(f.data)
    ensures var steps := LostEdit(p, data, t1, t2, t3, t4);
            && Ordinary(s, steps)
            && var t := Run(s, steps);
            && CaughtUp(t) && !Mirrors(t)
            && t.bridge.disk == map[p := File(Payload(f.data), t4, f.author)]
            && t.server.disk == map[p := File(Payload(data), t3, User(Bridge, |s.edits|))]
            && InJail(t.bridge, p) && InJail(t.server, p)
  {
    hide EditUnderWay, Reconnect, Cross, Run, CanRun, SoleWriterRun, AttentiveRun;
    OneFileFacts(s, p, f);
    EditSent(s, p, f, data, t1, t2);
    var s1 := Run(s, EditUnderWay(p, data, t1, t2));
    ReconnectOne(s1, p, File(Payload(f.data), t1, f.author));
    var s2 := Run(s1, Reconnect(p));
    var edit := File(data, t2, User(Bridge, |s.edits|));
    CrossOne(s2, p, edit, Frame(Write, p, Payload(data), edit.author), Frame(Create, p, Payload(f.data), f.author), t3, t4);
    OneModTime(p, File(Payload(f.data), t4, f.author));
    OrdinaryConcat(s1, Reconnect(p), Cross(p, t3, t4));
    OrdinaryConcat(s, EditUnderWay(p, data, t1, t2), Reconnect(p) + Cross(p, t3, t4));
    var t := Run(s2, Cross(p, t3, t4));
    assert t.server.disk == map[p := File(Payload(data), t3, edit.author)];
    assert p in t.bridge.disk && !Copied(t, p);
  }
}
