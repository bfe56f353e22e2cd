/** One side's code in the form it has: a folder, a watcher, and a jail that the
    frame writer and the watcher callback share. */
module SyncNode {
  import opened Prelude
  import opened Scanner
  import opened SyncProtocol

  class SyncFolder {
    var disk: map<Path, File>
    var jail: map<Path, Time>
    const watcher: FileWatcher

    constructor (files: map<Path, File>)
      ensures disk == files && jail == map[] && watcher.fileModTimes == map[] && fresh(watcher)
    {
      disk := files;
      jail := map[];
      watcher := new FileWatcher();
    }

    ghost function View(): Node
      reads this, watcher
    {
      Node(disk, watcher.fileModTimes, jail, [], [], [])
    }

    /** Write one received frame (`whWriteFile` on the bridge, `syncFileLocal` on the gateway).
        `fault` stands for a failing directory creation, decoding, write or removal. */
    method WriteFrame(f: Frame, now: Time, fault: bool)
      modifies this
      ensures View() == if fault then old(View()) else ApplyFrame(old(View()), f, now)
    {
      if f.action.Remove? {
        if !fault {
          disk := disk - {f.path};
        }
      } else {
        if fault {
          return;
        }
        disk := disk[f.path := File(f.content, now, f.author)];
        jail := jail[f.path := now];
      }
    }

    /** A `file_sync_batch`: its frames are written in order; a failing one does not stop the rest. */
    method WriteBatch(frames: seq<Frame>, writes: seq<Write>)
      requires |writes| == |frames|
      modifies this
      ensures View() == WriteAll(old(View()), frames, writes)
    {
      for i := 0 to |frames|
        invariant View() == WriteAll(old(View()), frames[..i], writes[..i])
      {
        assert frames[..i + 1][..i] == frames[..i] && writes[..i + 1][..i] == writes[..i];
        WriteFrame(frames[i], writes[i].time, writes[i].fault);
      }
      assert frames[..|frames|] == frames && writes[..|writes|] == writes;
    }

    /** The watcher callback: skip what the jail explains, read the rest. */
    method OnChangeBatch(events: seq<Event>) returns (frames: seq<Frame>)
      ensures Drain(View().(events := events)) == View().(batch := frames)
    {
      frames := [];
      for i := 0 to |events|
        invariant Drain(View().(events := events)) == Drain(View().(events := events[i..], batch := frames))
      {
        var e := events[i];
        ghost var n := View().(events := events[i..], batch := frames);
        assert FilterNext(n).events == events[i + 1..];
        if e.path in jail {
          if e.path in disk && !(disk[e.path].modTime > jail[e.path]) {
            continue;
          }
        }
        var content: Data, author := [], Nobody;
        if !e.action.Remove? {
          if e.path in disk {
            author := disk[e.path].author;
            if |disk[e.path].data| <= MAX_INLINE {
              content := disk[e.path].data;
            }
          }
        }
        frames := frames + [Frame(e.action, e.path, content, author)];
      }
    }

    /** One tick: scan, and hand the batch to the callback if there is one. Where the walk has
        seen the folder as it is, the result is a `Walk` step of the protocol followed
        by its `Filter` steps; in any case it is the same with what the walk saw. */
    method Poll(visits: seq<Visit>) returns (frames: seq<Frame>, ghost found: seq<Event>)
      requires WalkOnce(visits)
      modifies watcher
      ensures Failed in visits ==> View() == old(View()) && frames == []
      ensures Failed !in visits ==>
        var seen := Collected(visits);
        && IsDiff(old(View()).snapshot, seen, found)
        && Drain(old(View()).(snapshot := seen, events := found)) == View().(batch := frames)
    {
      var ok, events := watcher.Scan(visits);
      found := events;
      frames := [];
      if ok && |events| > 0 {
        frames := OnChangeBatch(events);
      }
    }

    /** `GCSyncState`: drop the jail entries older than `ttl`. */
    method GCSyncState(now: Time, ttl: int)
      modifies this
      ensures disk == old(disk)
      ensures jail == map p | p in old(jail) && now - old(jail)[p] <= ttl :: old(jail)[p]
    {
      var paths := jail.Keys;
      while paths != {}
        invariant disk == old(disk) && paths <= old(jail).Keys
        invariant forall p :: p in jail ==> p in old(jail) && jail[p] == old(jail)[p]
        invariant forall p :: p in old(jail) ==> (p in jail <==> p in paths || now - old(jail)[p] <= ttl)
        decreases |paths|
      {
        var path :| path in paths;
        paths := paths - {path};
        if now - jail[path] > ttl {
          jail := jail - {path};
        }
      }
    }
  }

  /** What the file system does with one frame. */
  datatype Write = Write(time: Time, fault: bool)

  function WriteAll(n: Node, frames: seq<Frame>, writes: seq<Write>): Node
    requires |writes| == |frames|
  {
    if frames == [] then n
    else
      var last := |frames| - 1;
      var before := WriteAll(n, frames[..last], writes[..last]);
      if writes[last].fault then before else ApplyFrame(before, frames[last], writes[last].time)
  }

  /** Writing a batch is a run of `Deliver` steps. */
  lemma {:induction false} BatchIsDelivering(s: System, side: Side, frames: seq<Frame>, writes: seq<Write>, later: seq<Frame>)
    requires |writes| == |frames| && s.At(side).inbox == frames + later
    ensures var steps := seq(|frames|, i requires 0 <= i < |frames| => Deliver(side, writes[i].time, !writes[i].fault));
            CanRun(s, steps) && Run(s, steps) == s.With(side, WriteAll(s.At(side), frames, writes).(inbox := later))
    decreases |frames|
  {
    var n := s.At(side);
    var steps := seq(|frames|, i requires 0 <= i < |frames| => Deliver(side, writes[i].time, !writes[i].fault));
    if frames == [] {
      assert [] + later == later;
      assert s.With(side, n) == s;
    } else {
      assert n.inbox[0] == frames[0] && n.inbox[1..] == frames[1..] + later;
      var s1 := Next(s, steps[0]);
      var rest := writes[1..];
      assert steps[1..] == seq(|rest|, i requires 0 <= i < |rest| => Deliver(side, rest[i].time, !rest[i].fault));
      BatchIsDelivering(s1, side, frames[1..], writes[1..], later);
      WriteFirst(n, frames, writes, n.inbox[1..]);
    }
  }

  function WriteOne(n: Node, f: Frame, w: Write): Node { if w.fault then n else ApplyFrame(n, f, w.time) }

  /** Writing does not depend on the frames still waiting, and the first frame may be written first. */
  lemma {:induction false} WriteFirst(n: Node, frames: seq<Frame>, writes: seq<Write>, waiting: seq<Frame>)
    requires |writes| == |frames| > 0
    ensures WriteAll(n, frames, writes).(inbox := []) ==
            WriteAll(WriteOne(n.(inbox := waiting), frames[0], writes[0]), frames[1..], writes[1..]).(inbox := [])
    decreases |frames|
  {
    var last := |frames| - 1;
    if last > 0 {
      WriteFirst(n, frames[..last], writes[..last], waiting);
      assert frames[1..][..last - 1] == frames[..last][1..] && writes[1..][..last - 1] == writes[..last][1..];
    }
  }
}
