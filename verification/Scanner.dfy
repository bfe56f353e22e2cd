/** The polling file watcher. The bridge (`FileWatcher`) and the gateway
    (`WorkspaceWatcher`) run the same scan: walk the workspace, compare each
    file's modification time with the last snapshot, and report one batch. */
module Scanner {
  import opened Prelude

  type Path = string
  type Time = int
  type Snapshot = map<Path, Time>

  datatype Action = Create | Write | Remove

  datatype Event = Event(action: Action, path: Path)

  /** What one call of the directory walk's callback is given. `Failed` is a
      callback entered with an error; `Unreadable` a file whose info cannot be
      read, which the walk skips without a trace. */
  datatype Visit = Failed | Directory | Unreadable(path: Path) | Found(path: Path, modTime: Time)

  /** The change of one path between two snapshots, if the watcher sees it. */
  function Change(prev: Snapshot, cur: Snapshot, p: Path): Option<Action> {
    if p in cur then
      if p !in prev then Some(Create) else if cur[p] > prev[p] then Some(Write) else None
    else if p in prev then Some(Remove) else None
  }

  ghost predicate DistinctPaths(events: seq<Event>) {
    forall i, j :: 0 <= i < j < |events| ==> events[i].path != events[j].path
  }

  /** `events` lists every visible change from `prev` to `cur` once and nothing else. */
  ghost predicate IsDiff(prev: Snapshot, cur: Snapshot, events: seq<Event>) {
    && DistinctPaths(events)
    && forall a, p :: Event(a, p) in events <==> Change(prev, cur, p) == Some(a)
  }

  ghost predicate RemovalsLast(events: seq<Event>) {
    forall i, j :: 0 <= i < j < |events| && events[i].action.Remove? ==> events[j].action.Remove?
  }

  /** The files a walk collects: later visits of a path would win. */
  function Collected(visits: seq<Visit>): Snapshot {
    if visits == [] then map[]
    else
      var before := Collected(visits[..|visits| - 1]);
      match visits[|visits| - 1]
      case Found(p, t) => before[p := t]
      case _ => before
  }

  /** A directory walk reaches no file twice. */
  ghost predicate WalkOnce(visits: seq<Visit>) {
    forall i, j :: 0 <= i < j < |visits| && visits[i].Found? && visits[j].Found? ==> visits[i].path != visits[j].path
  }

  lemma {:induction false} CollectedKeys(visits: seq<Visit>)
    ensures forall p :: p in Collected(visits) <==> exists i :: 0 <= i < |visits| && visits[i].Found? && visits[i].path == p
  {
    if visits != [] {
      var init := visits[..|visits| - 1];
      CollectedKeys(init);
      forall p ensures p in Collected(visits) <==> exists i :: 0 <= i < |visits| && visits[i].Found? && visits[i].path == p {
        if p in Collected(visits) {
          if p in Collected(init) {
            var i :| 0 <= i < |init| && init[i].Found? && init[i].path == p;
            assert visits[i] == init[i];
          } else {
            assert visits[|visits| - 1].Found? && visits[|visits| - 1].path == p;
          }
        }
        if i :| 0 <= i < |visits| && visits[i].Found? && visits[i].path == p {
          if i < |init| { assert init[i] == visits[i]; }
        }
      }
    }
  }

  class FileWatcher {
    var fileModTimes: Snapshot

    constructor ()
      ensures fileModTimes == map[]
    {
      fileModTimes := map[];
    }

    /** One scan. A failing walk drops what it had gathered and keeps the old
        snapshot, so the next scan is still compared with the last good one. */
    method Scan(visits: seq<Visit>) returns (ok: bool, events: seq<Event>)
      requires WalkOnce(visits)
      modifies this
      ensures ok <==> Failed !in visits
      ensures ok ==> fileModTimes == Collected(visits) && IsDiff(old(fileModTimes), fileModTimes, events)
      ensures RemovalsLast(events)
      ensures !ok ==> fileModTimes == old(fileModTimes) && events == []
    {
      var currentFiles: Snapshot := map[];
      events := [];
      for i := 0 to |visits|
        invariant fileModTimes == old(fileModTimes)
        invariant Failed !in visits[..i]
        invariant currentFiles == Collected(visits[..i])
        invariant DistinctPaths(events)
        invariant forall e :: e in events ==> !e.action.Remove? && e.path in currentFiles
        invariant forall a, p :: Event(a, p) in events <==> p in currentFiles && Change(fileModTimes, currentFiles, p) == Some(a)
      {
        assert visits[..i + 1][..i] == visits[..i];
        match visits[i] {
          case Failed => return false, [];
          case Directory =>
          case Unreadable(_) =>
          case Found(path, modTime) =>
            CollectedKeys(visits[..i]);
            assert path !in currentFiles;
            currentFiles := currentFiles[path := modTime];
            if path !in fileModTimes {
              events := events + [Event(Create, path)];
            } else if modTime > fileModTimes[path] {
              events := events + [Event(Write, path)];
            }
        }
      }
      assert visits[..|visits|] == visits;

      var pending := fileModTimes.Keys;
      while pending != {}
        invariant fileModTimes == old(fileModTimes) && pending <= fileModTimes.Keys
        invariant DistinctPaths(events) && RemovalsLast(events)
        invariant forall e :: e in events ==> e.path !in pending || e.path in currentFiles
        invariant forall a, p :: Event(a, p) in events <==>
          (p in currentFiles || p !in pending) && Change(fileModTimes, currentFiles, p) == Some(a)
        decreases |pending|
      {
        var path :| path in pending;
        pending := pending - {path};
        if path !in currentFiles {
          events := events + [Event(Remove, path)];
        }
      }
      fileModTimes := currentFiles;
      ok := true;
    }

    /** `Start`: an initial scan and, only if that one succeeds, one scan per tick. */
    method Start(walks: seq<seq<Visit>>) returns (batches: seq<Event>)
      requires fileModTimes == map[]
      requires walks != [] && forall w :: w in walks ==> WalkOnce(w)
      modifies this
      ensures Replay(batches, {}) == fileModTimes.Keys
      ensures Failed in walks[0] ==> batches == [] && fileModTimes == map[]
    {
      var ok, batch := Scan(walks[0]);
      batches := batch;
      if !ok { return; }
      ghost var none: Snapshot := map[];
      ReplayDiff(none, fileModTimes, batch);
      assert none.Keys == {};
      for i := 1 to |walks|
        invariant Replay(batches, {}) == fileModTimes.Keys
      {
        ghost var before := fileModTimes;
        ghost var sofar := batches;
        ok, batch := Scan(walks[i]);
        batches := batches + batch;
        ReplayConcat(sofar, batch, {});
        if ok { ReplayDiff(before, fileModTimes, batch); }
      }
    }
  }

  // ---- Replay: what a listener that only sees events knows about the tree ----

  function Listen(paths: set<Path>, e: Event): set<Path> {
    if e.action.Remove? then paths - {e.path} else paths + {e.path}
  }

  function Replay(events: seq<Event>, paths: set<Path>): set<Path> {
    if events == [] then paths else Replay(events[1..], Listen(paths, events[0]))
  }

  lemma {:induction false} ReplayConcat(a: seq<Event>, b: seq<Event>, paths: set<Path>)
    ensures Replay(a + b, paths) == Replay(b, Replay(a, paths))
  {
    if a == [] {
      assert a + b == b;
    } else {
      assert (a + b)[1..] == a[1..] + b;
      ReplayConcat(a[1..], b, Listen(paths, a[0]));
    }
  }

  /** With every path named once, order does not matter: the last word on a path is its only event. */
  lemma {:induction false} ReplayMember(events: seq<Event>, paths: set<Path>, p: Path)
    requires DistinctPaths(events)
    ensures p in Replay(events, paths) <==>
      (Event(Create, p) in events || Event(Write, p) in events || (p in paths && Event(Remove, p) !in events))
  {
    if events != [] {
      var e := events[0];
      ReplayMember(events[1..], Listen(paths, e), p);
      assert events == [e] + events[1..];
      if e.path == p {
        assert forall a :: Event(a, p) !in events[1..];
        assert e.action.Create? || e.action.Write? || e.action.Remove?;
      }
    }
  }

  /** One batch turns the old path set into the new one. */
  lemma ReplayDiff(prev: Snapshot, cur: Snapshot, events: seq<Event>)
    requires IsDiff(prev, cur, events)
    ensures Replay(events, prev.Keys) == cur.Keys
  {
    forall p ensures p in Replay(events, prev.Keys) <==> p in cur.Keys {
      ReplayMember(events, prev.Keys, p);
      assert Event(Create, p) in events <==> Change(prev, cur, p) == Some(Create);
      assert Event(Write, p) in events <==> Change(prev, cur, p) == Some(Write);
      assert Event(Remove, p) in events <==> Change(prev, cur, p) == Some(Remove);
    }
  }

  /** What a walk has collected: every file found, with the time it was found with. */
  lemma {:induction false} CollectedIs(visits: seq<Visit>, p: Path, t: Time)
    requires WalkOnce(visits)
    ensures p in Collected(visits) && Collected(visits)[p] == t <==> Found(p, t) in visits
  {
    if visits != [] {
      var init, last := visits[..|visits| - 1], visits[|visits| - 1];
      CollectedIs(init, p, t);
      assert visits == init + [last];
      if last.Found? && last.path == p {
        assert Found(p, t) !in init;
      }
    }
  }

  /** A batch names each kind of change for just the paths it befell. */
  lemma BatchIs(prev: Snapshot, cur: Snapshot, events: seq<Event>, p: Path)
    requires IsDiff(prev, cur, events)
    ensures Event(Create, p) in events <==> p in cur.Keys - prev.Keys
    ensures Event(Write, p) in events <==> p in cur.Keys * prev.Keys && cur[p] > prev[p]
    ensures Event(Remove, p) in events <==> p in prev.Keys - cur.Keys
  {
    assert Event(Create, p) in events <==> Change(prev, cur, p) == Some(Create);
    assert Event(Write, p) in events <==> Change(prev, cur, p) == Some(Write);
    assert Event(Remove, p) in events <==> Change(prev, cur, p) == Some(Remove);
  }

  // ---- Runs of scans, some of which fail ----

  datatype Outcome = Aborted | Completed(cur: Snapshot, batch: seq<Event>)

  ghost predicate IsRun(prev: Snapshot, run: seq<Outcome>)
    decreases |run|
  {
    run == [] ||
    match run[0]
    case Aborted => IsRun(prev, run[1..])
    case Completed(cur, batch) => IsDiff(prev, cur, batch) && IsRun(cur, run[1..])
  }

  function LastSnapshot(prev: Snapshot, run: seq<Outcome>): Snapshot
    decreases |run|
  {
    if run == [] then prev
    else LastSnapshot(if run[0].Completed? then run[0].cur else prev, run[1..])
  }

  function Emitted(run: seq<Outcome>): seq<Event> {
    if run == [] then []
    else (if run[0].Completed? then run[0].batch else []) + Emitted(run[1..])
  }

  /** Over any mix of good and failed scans the emitted events, replayed from
      the first snapshot, give exactly the paths of the last good scan. */
  lemma {:induction false} ScanReplay(prev: Snapshot, run: seq<Outcome>)
    requires IsRun(prev, run)
    ensures Replay(Emitted(run), prev.Keys) == LastSnapshot(prev, run).Keys
    decreases |run|
  {
    if run != [] {
      match run[0]
      case Aborted =>
        assert [] + Emitted(run[1..]) == Emitted(run[1..]);
        ScanReplay(prev, run[1..]);
      case Completed(cur, batch) =>
        ReplayDiff(prev, cur, batch);
        ReplayConcat(batch, Emitted(run[1..]), prev.Keys);
        ScanReplay(cur, run[1..]);
    }
  }

  /** No content change is lost while time stamps move forward: if a path's
      time rises between two good scans, some batch after the first names the
      path with a content event, however many scans failed in between. */
  lemma {:induction false} RisingTimeIsReported(prev: Snapshot, run: seq<Outcome>, p: Path)
    requires IsRun(prev, run)
    requires p in LastSnapshot(prev, run)
    requires p in prev ==> LastSnapshot(prev, run)[p] > prev[p]
    ensures Event(Create, p) in Emitted(run) || Event(Write, p) in Emitted(run)
    decreases |run|
  {
    if run != [] {
      match run[0]
      case Aborted =>
        RisingTimeIsReported(prev, run[1..], p);
      case Completed(cur, batch) =>
        if p !in cur || LastSnapshot(cur, run[1..])[p] > cur[p] {
          RisingTimeIsReported(cur, run[1..], p);
        } else if p !in prev {
          assert Change(prev, cur, p) == Some(Create);
          assert Event(Create, p) in batch;
        } else {
          assert Change(prev, cur, p) == Some(Write);
          assert Event(Write, p) in batch;
        }
    }
  }

  /** The converse limit of a time-stamp watcher: a file replaced by one that is
      not newer is invisible to the next scan, whatever its content. */
  lemma OlderReplacementIsInvisible(prev: Snapshot, cur: Snapshot, events: seq<Event>, p: Path)
    requires IsDiff(prev, cur, events) && p in prev && p in cur
    ensures (forall e :: e in events ==> e.path != p) <==> cur[p] <= prev[p]
  {
    if cur[p] <= prev[p] {
      forall e | e in events ensures e.path != p {
        assert e == Event(e.action, e.path);
        assert Change(prev, cur, e.path) == Some(e.action);
      }
    } else {
      assert Change(prev, cur, p) == Some(Write);
      assert Event(Write, p) in events;
    }
  }
}
