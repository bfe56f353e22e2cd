/** Large files travel on demand as numbered chunks: the bridge splits, the gateway reassembles. */
module Chunks {
  import opened Prelude

  type Path = string

  const CHUNK_SIZE: nat := 1048576

  datatype Chunk = Chunk(path: Path, index: int, total: int, content: Data)

  datatype Assembly = Assembly(expected: int, received: map<int, Data>)

  type Pending = map<Path, Assembly>

  // ---- Splitting ----

  function Total(data: Data): nat {
    var total := (|data| + CHUNK_SIZE - 1) / CHUNK_SIZE;
    if total == 0 then 1 else total
  }

  /** The offset at which chunk `i` begins; past the last chunk, the end of the file. */
  function Offset(data: Data, i: nat): nat {
    if i * CHUNK_SIZE <= |data| then i * CHUNK_SIZE else |data|
  }

  function Piece(data: Data, i: nat): Data {
    data[Offset(data, i)..Offset(data, i + 1)]
  }

  function Split(path: Path, data: Data): seq<Chunk> {
    seq(Total(data), i => Chunk(path, i, Total(data), if 0 <= i then Piece(data, i) else []))
  }

  /** An open file; a read fills the buffer unless the file ends first. */
  class FileReader {
    const data: Data
    var pos: nat

    ghost predicate Valid() reads this { pos <= |data| }

    constructor (data: Data)
      ensures Valid() && this.data == data && pos == 0
    {
      this.data, pos := data, 0;
    }

    method Read(buf: array<byte>) returns (n: nat, eof: bool)
      requires Valid() && buf.Length > 0
      modifies this, buf
      ensures Valid() && n == Min(buf.Length, |data| - old(pos)) && pos == old(pos) + n
      ensures n <= buf.Length && buf[..n] == data[old(pos)..pos]
      ensures eof <==> n == 0
    {
      n := Min(buf.Length, |data| - pos);
      forall i | 0 <= i < n {
        buf[i] := data[pos + i];
      }
      pos := pos + n;
      eof := n == 0;
    }
  }

  /** Stream a file; `readable` is the number of reads that succeed, `capacity` the number of
      frames the connection accepts before it fails. */
  method StreamFileChunks(path: Path, data: Data, readable: nat, capacity: nat) returns (sent: seq<Chunk>)
    ensures sent == Split(path, data)[..Min(Min(readable, capacity), Total(data))]
  {
    var file := new FileReader(data);
    var total := (|data| + CHUNK_SIZE - 1) / CHUNK_SIZE;
    if total == 0 {
      total := 1;
    }
    var buf := new byte[CHUNK_SIZE];
    sent := [];
    for i := 0 to total
      invariant file.Valid() && file.data == data && fresh(file) && fresh(buf)
      invariant file.pos == Offset(data, i)
      invariant i <= capacity && i <= readable && sent == Split(path, data)[..i]
    {
      if i == readable {
        break;
      }
      var n, eof := file.Read(buf);
      var content := [];
      if n > 0 {
        content := buf[..n];
      }
      assert content == Piece(data, i);
      if i == capacity {
        break;
      }
      sent := sent + [Chunk(path, i, total, content)];
      if eof {
        assert i + 1 == total;
        break;
      }
    }
  }

  function Contents(frames: seq<Chunk>): Data {
    if frames == [] then [] else Contents(frames[..|frames| - 1]) + frames[|frames| - 1].content
  }

  lemma {:induction false} ContentsOfSplit(p: Path, data: Data, n: nat)
    requires n <= Total(data)
    ensures Contents(Split(p, data)[..n]) == data[..Offset(data, n)]
  {
    hide Total, Split, Piece;
    SplitShape(p, data);
    if n > 0 {
      var frames := Split(p, data)[..n];
      ContentsOfSplit(p, data, n - 1);
      assert frames[..n - 1] == Split(p, data)[..n - 1] && frames[n - 1].content == Piece(data, n - 1);
      PieceExtends(data, n - 1);
    }
  }

  /** The split of a file: numbered chunks that all tell their number, each but the last a mebibyte long, the last
      one empty only if the file is, and together exactly the file. */
  lemma SplitIsExact(p: Path, data: Data)
    ensures var frames := Split(p, data);
            && frames != [] && Contents(frames) == data
            && (forall i :: 0 <= i < |frames| ==>
                  && frames[i].path == p && frames[i].index == i && frames[i].total == |frames|
                  && (if i < |frames| - 1 then |frames[i].content| == 1048576 else |frames[i].content| <= 1048576)
                  && (frames[i].content == [] ==> data == []))
  {
    ContentsOfSplit(p, data, Total(data));
    assert Split(p, data)[..Total(data)] == Split(p, data);
    assert Offset(data, Total(data)) == |data| && data[..|data|] == data;
  }

  // ---- Reassembly ----

  /** The received chunks in index order; a missing one contributes nothing. */
  function Join(received: map<int, Data>, n: int): Data
    decreases n
  {
    if n <= 0 then [] else Join(received, n - 1) + (if n - 1 in received then received[n - 1] else [])
  }

  /** The assembly of a chunk's path with the chunk entered; the first chunk fixes the expected count. */
  function Entered(pending: Pending, c: Chunk): Assembly {
    var a := if c.path in pending then pending[c.path] else Assembly(c.total, map[]);
    a.(received := a.received[c.index := c.content])
  }

  predicate Completes(pending: Pending, c: Chunk) {
    var a := Entered(pending, c);
    |a.received| == a.expected
  }

  function After(pending: Pending, c: Chunk): Pending {
    if Completes(pending, c) then pending - {c.path} else pending[c.path := Entered(pending, c)]
  }

  function Written(pending: Pending, c: Chunk): Option<Data> {
    if Completes(pending, c) then Some(Join(Entered(pending, c).received, Entered(pending, c).expected)) else None
  }

  class ChunkReceiver {
    var pendingChunks: Pending

    constructor ()
      ensures pendingChunks == map[]
    {
      pendingChunks := map[];
    }

    /** The `file_chunk` branch of the bridge handler; `written` is the file content it writes, if any. */
    method Receive(c: Chunk) returns (written: Option<Data>)
      modifies this
      ensures pendingChunks == After(old(pendingChunks), c)
      ensures written == Written(old(pendingChunks), c)
    {
      var assembly;
      if c.path in pendingChunks {
        assembly := pendingChunks[c.path];
      } else {
        assembly := Assembly(c.total, map[]);
      }
      assembly := assembly.(received := assembly.received[c.index := c.content]);
      pendingChunks := pendingChunks[c.path := assembly];
      if |assembly.received| != assembly.expected {
        return None;
      }
      var fullData: Data := [];
      for i := 0 to assembly.expected
        invariant fullData == Join(assembly.received, i)
      {
        if i in assembly.received {
          fullData := fullData + assembly.received[i];
        }
      }
      pendingChunks := pendingChunks - {c.path};
      written := Some(fullData);
    }
  }

  // ---- Round trip ----

  type Files = map<Path, Data>

  /** A frame of a stream of one of the (unchanged) files. */
  ghost predicate Authentic(files: Files, c: Chunk) {
    c.path in files && c in Split(c.path, files[c.path])
  }

  /** A partial assembly holding only chunks of the file, not yet all of them. */
  ghost predicate Partial(data: Data, a: Assembly) {
    && a.expected == Total(data)
    && (forall i :: i in a.received ==> 0 <= i < Total(data) && a.received[i] == Piece(data, i))
    && |a.received| < a.expected
  }

  ghost predicate AllPartial(files: Files, pending: Pending) {
    forall p :: p in pending ==> p in files && Partial(files[p], pending[p])
  }

  lemma {:induction false} CountRange(s: set<int>, n: nat)
    requires forall i :: i in s ==> 0 <= i < n
    ensures |s| <= n
    ensures |s| == n ==> forall i :: 0 <= i < n ==> i in s
  {
    if n == 0 {
      if s != {} { var x := Pick(s); assert false; }
    } else {
      var rest := s - {n - 1};
      CountRange(rest, n - 1);
      if n - 1 in s {
        assert s == rest + {n - 1};
      } else {
        assert s == rest;
      }
    }
  }

  lemma {:induction false} HasRange(s: set<int>, n: nat)
    requires forall i :: 0 <= i < n ==> i in s
    ensures |s| >= n
  {
    if n > 0 { HasRange(s - {n - 1}, n - 1); }
  }

  lemma PieceExtends(data: Data, n: nat)
    ensures Offset(data, n) <= Offset(data, n + 1) <= |data|
    ensures data[..Offset(data, n + 1)] == data[..Offset(data, n)] + Piece(data, n)
  {
  }

  lemma OffsetEnd(data: Data)
    ensures Offset(data, Total(data)) == |data|
  {
  }

  lemma {:induction false} JoinPieces(data: Data, received: map<int, Data>, n: nat)
    requires forall i :: 0 <= i < n ==> i in received && received[i] == Piece(data, i)
    ensures Join(received, n) == data[..Offset(data, n)]
  {
    if n > 0 {
      JoinPieces(data, received, n - 1);
      PieceExtends(data, n - 1);
    }
  }

  /** All chunks present: the joined content is the file. */
  lemma FullAssembly(data: Data, received: map<int, Data>)
    requires forall i :: i in received ==> 0 <= i < Total(data) && received[i] == Piece(data, i)
    requires |received| == Total(data)
    ensures Join(received, Total(data)) == data
  {
    assert |received.Keys| == |received|;
    CountRange(received.Keys, Total(data));
    assert forall i :: 0 <= i < Total(data) ==> i in received.Keys;
    JoinPieces(data, received, Total(data));
    OffsetEnd(data);
    assert data[..|data|] == data;
  }

  lemma ReceiveAuthentic(files: Files, pending: Pending, c: Chunk)
    requires AllPartial(files, pending) && Authentic(files, c)
    ensures AllPartial(files, After(pending, c))
    ensures Written(pending, c).Some? ==> Written(pending, c).value == files[c.path]
  {
    hide Join;
    var data := files[c.path];
    var a := Entered(pending, c);
    assert forall i :: i in a.received ==> 0 <= i < Total(data) && a.received[i] == Piece(data, i);
    assert |a.received.Keys| == |a.received|;
    CountRange(a.received.Keys, Total(data));
    if Completes(pending, c) {
      FullAssembly(data, a.received);
    }
  }

  /** The contents written while a sequence of frames is received, with their paths. */
  function Writes(pending: Pending, frames: seq<Chunk>): seq<(Path, Data)>
    decreases |frames|
  {
    if frames == [] then []
    else
      var w := Written(pending, frames[0]);
      (if w.Some? then [(frames[0].path, w.value)] else []) + Writes(After(pending, frames[0]), frames[1..])
  }

  function Received(pending: Pending, frames: seq<Chunk>): Pending
    decreases |frames|
  {
    if frames == [] then pending else Received(After(pending, frames[0]), frames[1..])
  }

  /** Round trip. However the frames of any number of streams of any number of
      unchanged files interleave, repeat or go missing, every completed assembly
      writes exactly its file. */
  lemma {:induction false} CompletedMeansFile(files: Files, pending: Pending, frames: seq<Chunk>)
    requires AllPartial(files, pending) && forall c :: c in frames ==> Authentic(files, c)
    ensures forall w :: w in Writes(pending, frames) ==> w.0 in files && w.1 == files[w.0]
    ensures AllPartial(files, Received(pending, frames))
    decreases |frames|
  {
    if frames != [] {
      ReceiveAuthentic(files, pending, frames[0]);
      CompletedMeansFile(files, After(pending, frames[0]), frames[1..]);
    }
  }

  /** While a path is not written, its assembly only grows. */
  lemma {:induction false} KeptUntilWritten(pending: Pending, frames: seq<Chunk>, p: Path)
    requires forall w :: w in Writes(pending, frames) ==> w.0 != p
    ensures p in pending ==> p in Received(pending, frames) && pending[p].received.Keys <= Received(pending, frames)[p].received.Keys
    ensures forall c :: c in frames && c.path == p ==> p in Received(pending, frames) && c.index in Received(pending, frames)[p].received
    decreases |frames|
  {
    if frames != [] {
      var c := frames[0];
      var w := Written(pending, c);
      assert w.Some? ==> (c.path, w.value) in Writes(pending, frames);
      assert forall w :: w in Writes(After(pending, c), frames[1..]) ==> w in Writes(pending, frames);
      KeptUntilWritten(After(pending, c), frames[1..], p);
    }
  }

  lemma UnwrittenHoldsAll(files: Files, pending: Pending, frames: seq<Chunk>, p: Path)
    requires p in files && forall c :: c in Split(p, files[p]) ==> c in frames
    requires forall w :: w in Writes(pending, frames) ==> w.0 != p
    ensures p in Received(pending, frames)
    ensures forall i :: 0 <= i < Total(files[p]) ==> i in Received(pending, frames)[p].received
  {
    KeptUntilWritten(pending, frames, p);
    var split := Split(p, files[p]);
    assert split[0] in split && split[0] in frames;
    forall i | 0 <= i < Total(files[p]) ensures i in Received(pending, frames)[p].received {
      assert split[i] in split && split[i] in frames && split[i].index == i;
    }
  }

  /** Completion. Once every chunk of a file has arrived, in any order and amid any
      other authentic frames, the file has been written at least once. */
  lemma CompleteStreamWrites(files: Files, pending: Pending, frames: seq<Chunk>, p: Path)
    requires AllPartial(files, pending) && p in files && forall c :: c in frames ==> Authentic(files, c)
    requires forall c :: c in Split(p, files[p]) ==> c in frames
    ensures (p, files[p]) in Writes(pending, frames)
  {
    CompletedMeansFile(files, pending, frames);
    if forall w :: w in Writes(pending, frames) ==> w.0 != p {
      UnwrittenHoldsAll(files, pending, frames, p);
      var held := Received(pending, frames)[p].received;
      assert |held.Keys| == |held|;
      HasRange(held.Keys, Total(files[p]));
      assert false;
    }
    var w :| w in Writes(pending, frames) && w.0 == p;
    assert w == (p, files[p]);
  }

  // ---- Frames of one path, whatever they hold ----

  function Indices(frames: seq<Chunk>): set<int> { set c <- frames :: c.index }

  /** What is held after entering the frames, the last one of each index winning. */
  function Merge(received: map<int, Data>, frames: seq<Chunk>): map<int, Data>
    decreases |frames|
  {
    if frames == [] then received else Merge(received[frames[0].index := frames[0].content], frames[1..])
  }

  predicate AllOf(p: Path, frames: seq<Chunk>) { forall i :: 0 <= i < |frames| ==> frames[i].path == p }

  lemma IndicesFirst(frames: seq<Chunk>)
    requires frames != []
    ensures Indices(frames) == {frames[0].index} + Indices(frames[1..])
  {
    assert frames == [frames[0]] + frames[1..];
  }

  lemma OneMore(s: set<int>, i: int)
    ensures |s + {i}| <= |s| + 1
  {
    if i in s { assert s + {i} == s; }
  }

  lemma {:induction false} MergeKeys(received: map<int, Data>, frames: seq<Chunk>)
    ensures Merge(received, frames).Keys == received.Keys + Indices(frames)
    decreases |frames|
  {
    if frames != [] {
      IndicesFirst(frames);
      MergeKeys(received[frames[0].index := frames[0].content], frames[1..]);
    }
  }

  lemma PartialStep(a: Assembly, frames: seq<Chunk>)
    requires frames != [] && |a.received.Keys + Indices(frames)| < a.expected
    ensures var received := a.received[frames[0].index := frames[0].content];
            && |received| < a.expected
            && received.Keys + Indices(frames[1..]) == a.received.Keys + Indices(frames)
  {
    var received := a.received[frames[0].index := frames[0].content];
    IndicesFirst(frames);
    hide Indices;
    assert received.Keys == a.received.Keys + {frames[0].index};
    assert |received.Keys| == |received|;
    SubsetSize(received.Keys, a.received.Keys + Indices(frames));
  }

  /** While not all indices are there, everything is held and nothing is written. */
  lemma {:induction false} HeldWhilePartial(pending: Pending, frames: seq<Chunk>, p: Path)
    requires p in pending && |pending[p].received| < pending[p].expected && AllOf(p, frames)
    requires |pending[p].received.Keys + Indices(frames)| < pending[p].expected
    ensures Writes(pending, frames) == []
    ensures Received(pending, frames) == pending[p := Assembly(pending[p].expected, Merge(pending[p].received, frames))]
    decreases |frames|
  {
    hide Indices;
    var a := pending[p];
    if frames != [] {
      PartialStep(a, frames);
      HeldWhilePartial(pending[p := Entered(pending, frames[0])], frames[1..], p);
    } else {
      assert pending[p := Assembly(a.expected, a.received)] == pending;
    }
  }

  /** Stalling, exactly: frames of a path in assembly write nothing if and only if their
      indices and those held are fewer than the count the assembly expects. */
  lemma {:induction false} StallsIff(pending: Pending, frames: seq<Chunk>, p: Path)
    requires p in pending && |pending[p].received| < pending[p].expected && AllOf(p, frames)
    ensures Writes(pending, frames) == [] <==> |pending[p].received.Keys + Indices(frames)| < pending[p].expected
    decreases |frames|
  {
    var a := pending[p];
    assert |a.received.Keys| == |a.received|;
    if frames == [] {
      assert a.received.Keys + Indices(frames) == a.received.Keys;
    } else {
      var c := frames[0];
      var e := Entered(pending, c);
      IndicesFirst(frames);
      assert e.received.Keys == a.received.Keys + {c.index};
      assert |e.received.Keys| == |e.received|;
      SubsetSize(e.received.Keys, a.received.Keys + Indices(frames));
      OneMore(a.received.Keys, c.index);
      if !Completes(pending, c) {
        assert e.received.Keys + Indices(frames[1..]) == a.received.Keys + Indices(frames);
        StallsIff(pending[p := e], frames[1..], p);
      }
    }
  }

  lemma {:induction false} WritesConcat(pending: Pending, a: seq<Chunk>, b: seq<Chunk>)
    ensures Writes(pending, a + b) == Writes(pending, a) + Writes(Received(pending, a), b)
    ensures Received(pending, a + b) == Received(Received(pending, a), b)
    decreases |a|
  {
    hide Written, After, Writes, Received;
    if a == [] {
      assert a + b == b;
      NothingWritten(pending);
    } else {
      assert (a + b)[0] == a[0] && (a + b)[1..] == a[1..] + b;
      WritesFirst(pending, a + b);
      WritesFirst(pending, a);
      WritesConcat(After(pending, a[0]), a[1..], b);
    }
  }

  lemma NothingWritten(pending: Pending)
    ensures Writes(pending, []) == [] && Received(pending, []) == pending
  {
  }

  lemma {:induction false} MergeLast(received: map<int, Data>, frames: seq<Chunk>, c: Chunk)
    ensures Merge(received, frames + [c]) == Merge(received, frames)[c.index := c.content]
    decreases |frames|
  {
    if frames == [] {
      assert ([] + [c])[1..] == [];
    } else {
      assert (frames + [c])[1..] == frames[1..] + [c];
      MergeLast(received[frames[0].index := frames[0].content], frames[1..], c);
    }
  }

  /** One frame that completes its assembly. */
  lemma OneCompletes(pending: Pending, c: Chunk)
    requires Completes(pending, c)
    ensures Writes(pending, [c]) == [(c.path, Join(Entered(pending, c).received, Entered(pending, c).expected))]
    ensures Received(pending, [c]) == pending - {c.path}
  {
    hide Join, Entered, Completes;
    assert [c][1..] == [];
  }

  /** The frame that brings the last missing index writes what is held then. */
  lemma CompletingFrameWrites(pending: Pending, frames: seq<Chunk>, c: Chunk, p: Path)
    requires p in pending && |pending[p].received| < pending[p].expected && AllOf(p, frames) && c.path == p
    requires |pending[p].received.Keys + Indices(frames)| < pending[p].expected
    requires |pending[p].received.Keys + Indices(frames) + {c.index}| == pending[p].expected
    ensures Writes(pending, frames + [c]) == [(p, Join(Merge(pending[p].received, frames + [c]), pending[p].expected))]
    ensures Received(pending, frames + [c]) == pending - {p}
  {
    hide Join, Merge, Writes, Received, Indices, AllOf;
    var a := pending[p];
    HeldWhilePartial(pending, frames, p);
    WritesConcat(pending, frames, [c]);
    var held := Received(pending, frames);
    var merged := Merge(a.received, frames + [c]);
    MergeLast(a.received, frames, c);
    MergeKeys(a.received, frames);
    assert Entered(held, c) == Assembly(a.expected, merged);
    assert merged.Keys == a.received.Keys + Indices(frames) + {c.index} && |merged.Keys| == |merged|;
    OneCompletes(held, c);
    assert held - {p} == pending - {p};
  }

  lemma {:induction false} NeverMet(pending: Pending, frames: seq<Chunk>, p: Path)
    requires p in pending && pending[p].expected <= 0
    ensures forall w :: w in Writes(pending, frames) ==> w.0 != p
    decreases |frames|
  {
    hide Join;
    if frames != [] {
      var c := frames[0];
      var e := Entered(pending, c);
      if c.path == p {
        assert c.index in e.received;
        assert |e.received| > 0;
      }
      NeverMet(After(pending, c), frames[1..], p);
    }
  }

  /** A count of none, or less than none, is never met: nothing is written for a path whose first frame announces
      one, whatever frames follow. */
  lemma NoCountNoFile(pending: Pending, c: Chunk, frames: seq<Chunk>)
    requires c.path !in pending && c.total <= 0
    ensures forall w :: w in Writes(pending, [c] + frames) ==> w.0 != c.path
  {
    hide Join, Writes;
    assert ([c] + frames)[0] == c && ([c] + frames)[1..] == frames;
    WritesFirst(pending, [c] + frames);
    assert |Entered(pending, c).received| == 1;
    NeverMet(After(pending, c), frames, c.path);
  }

  lemma WritesFirst(pending: Pending, frames: seq<Chunk>)
    requires frames != []
    ensures var w := Written(pending, frames[0]);
            Writes(pending, frames) == (if w.Some? then [(frames[0].path, w.value)] else []) + Writes(After(pending, frames[0]), frames[1..])
    ensures Received(pending, frames) == Received(After(pending, frames[0]), frames[1..])
  {
    hide Written, After;
  }

  // ---- A stream after one that broke off ----

  function Range(n: nat): (s: set<int>)
    ensures forall i :: i in s <==> 0 <= i < n
  {
    if n == 0 then {} else Range(n - 1) + {n - 1}
  }

  lemma RangeSize(n: nat)
    ensures |Range(n)| == n
  {
    CountRange(Range(n), n);
    HasRange(Range(n), n);
  }

  lemma SplitIndices(p: Path, data: Data, n: nat)
    requires n <= Total(data)
    ensures AllOf(p, Split(p, data)[..n]) && Indices(Split(p, data)[..n]) == Range(n)
  {
    var frames := Split(p, data)[..n];
    forall i | 0 <= i < n ensures i in Indices(frames) {
      assert frames[i].index == i && frames[i] in frames;
    }
    forall i | i in Indices(frames) ensures i in Range(n) {
      var c :| c in frames && c.index == i;
      var k :| 0 <= k < |frames| && frames[k] == c;
    }
  }

  lemma SplitShape(p: Path, data: Data)
    ensures |Split(p, data)| == Total(data) > 0
    ensures forall c <- Split(p, data) :: c.path == p && c.total == Total(data) && c.index >= 0
    ensures forall i :: 0 <= i < Total(data) ==> Split(p, data)[i] == Chunk(p, i, Total(data), Piece(data, i))
  {
  }

  /** The assembly an incomplete stream leaves behind. */
  function Stale(p: Path, before: Data, k: nat): Pending
    requires k <= Total(before)
  {
    map[p := Assembly(Total(before), Merge(map[], Split(p, before)[..k]))]
  }

  /** The first frame of a path fixes the count; from there on an empty assembly would do as well. */
  lemma AsIfExpected(frames: seq<Chunk>, p: Path, total: int)
    requires frames != [] && AllOf(p, frames) && frames[0].total == total
    ensures Writes(map[], frames) == Writes(map[p := Assembly(total, map[])], frames)
    ensures Received(map[], frames) == Received(map[p := Assembly(total, map[])], frames)
  {
    var c := frames[0];
    var none: Pending := map[];
    var empty: Pending := map[p := Assembly(total, map[])];
    assert Entered(none, c) == Entered(empty, c);
    assert none - {p} == empty - {p} && none[p := Entered(none, c)] == empty[p := Entered(none, c)];
    assert After(none, c) == After(empty, c);
  }

  lemma FreshPartial(frames: seq<Chunk>, p: Path, total: int)
    requires frames != [] && AllOf(p, frames) && frames[0].total == total && |Indices(frames)| < total
    ensures Writes(map[], frames) == []
    ensures Received(map[], frames) == map[p := Assembly(total, Merge(map[], frames))]
  {
    hide Writes, Received, Indices, Merge, AllOf;
    var none: map<int, Data> := map[];
    var empty: Pending := map[p := Assembly(total, none)];
    AsIfExpected(frames, p, total);
    assert none.Keys + Indices(frames) == Indices(frames);
    HeldWhilePartial(empty, frames, p);
    assert empty[p := Assembly(total, Merge(none, frames))] == map[p := Assembly(total, Merge(none, frames))];
  }

  lemma FreshCompletes(most: seq<Chunk>, c: Chunk, p: Path, total: int)
    requires AllOf(p, most) && c.path == p && (most + [c])[0].total == total > 0
    requires |Indices(most)| < total == |Indices(most) + {c.index}|
    ensures Writes(map[], most + [c]) == [(p, Join(Merge(map[], most + [c]), total))]
  {
    hide Writes, Received, Indices, Merge, Join;
    var none: map<int, Data> := map[];
    var empty: Pending := map[p := Assembly(total, none)];
    AsIfExpected(most + [c], p, total);
    assert none.Keys + Indices(most) == Indices(most);
    CompletingFrameWrites(empty, most, c, p);
  }

  lemma BrokenOffStreamIsStale(p: Path, before: Data, k: nat)
    requires 0 < k < Total(before)
    ensures Received(map[], Split(p, before)[..k]) == Stale(p, before, k) && Writes(map[], Split(p, before)[..k]) == []
  {
    hide Merge, Writes, Received, Total, Indices;
    SplitShape(p, before);
    SplitIndices(p, before, k);
    RangeSize(k);
    FreshPartial(Split(p, before)[..k], p, Total(before));
  }

  lemma {:induction false} MergeSplit(p: Path, data: Data, received: map<int, Data>, n: nat)
    requires n <= Total(data)
    ensures var merged := Merge(received, Split(p, data)[..n]);
            forall i :: 0 <= i < n ==> i in merged && merged[i] == Piece(data, i)
    decreases n
  {
    hide Total, Piece, Merge, Split;
    SplitShape(p, data);
    var frames := Split(p, data)[..n];
    if n > 0 {
      var init := Split(p, data)[..n - 1];
      assert frames == init + [Split(p, data)[n - 1]];
      MergeSplit(p, data, received, n - 1);
      MergeLast(received, init, Split(p, data)[n - 1]);
    }
  }

  lemma StaleSize(p: Path, before: Data, k: nat)
    requires 0 < k < Total(before)
    ensures Stale(p, before, k)[p].received.Keys == Range(k) && |Stale(p, before, k)[p].received| == k
  {
    SplitIndices(p, before, k);
    MergeKeys(map[], Split(p, before)[..k]);
    RangeSize(k);
    var none: map<int, Data> := map[];
    assert none.Keys + Range(k) == Range(k);
    var received := Stale(p, before, k)[p].received;
    assert |received.Keys| == |received|;
  }

  lemma RestIndices(p: Path, data: Data, n: nat)
    requires n <= Total(data)
    ensures Indices(Split(p, data)[n..]) <= Range(Total(data)) - Range(n)
  {
    hide Total, Piece;
    SplitShape(p, data);
    var rest := Split(p, data)[n..];
    forall x | x in Indices(rest) ensures x in Range(Total(data)) - Range(n) {
      var c :| c in rest && c.index == x;
      var i :| 0 <= i < |rest| && rest[i] == c;
      assert rest[i] == Split(p, data)[n + i];
    }
  }

  /** The later chunks of a stream alone never complete an assembly. */
  lemma RestIsHeld(p: Path, after: Data, n: nat)
    requires 0 < n <= Total(after)
    ensures Writes(map[], Split(p, after)[n..]) == []
  {
    hide Split, Total, Indices, Range, Received;
    SplitShape(p, after);
    var rest := Split(p, after)[n..];
    if rest != [] {
      RestIndices(p, after, n);
      LateSize(n, Total(after));
      SubsetSize(Indices(rest), Range(Total(after)) - Range(n));
      FreshPartial(rest, p, Total(after));
    }
  }

  lemma LateSize(n: nat, total: nat)
    requires 0 < n <= total
    ensures |Range(total) - Range(n)| < total
  {
    RangeSize(total);
    assert 0 in Range(total) && 0 in Range(n);
    SubsetSize(Range(total) - Range(n), Range(total) - {0});
  }

  lemma PrefixCompletes(p: Path, before: Data, after: Data, k: nat)
    requires 0 < k < Total(before) <= Total(after)
    ensures var n := Total(before);
            && Writes(Stale(p, before, k), Split(p, after)[..n]) == [(p, after[..Offset(after, n)])]
            && Received(Stale(p, before, k), Split(p, after)[..n]) == map[]
  {
    hide Split, Merge, Writes, Received, Range, Total, Indices, Offset, Piece, Join;
    var n := Total(before);
    var stale := Stale(p, before, k);
    SplitShape(p, after);
    var most, last := Split(p, after)[..n - 1], Split(p, after)[n - 1];
    StaleSize(p, before, k);
    SplitIndices(p, after, n - 1);
    assert Range(k) + Range(n - 1) == Range(n - 1) && Range(n - 1) + {n - 1} == Range(n);
    RangeSize(n - 1);
    RangeSize(n);
    CompletingFrameWrites(stale, most, last, p);
    assert most + [last] == Split(p, after)[..n];
    var merged := Merge(stale[p].received, Split(p, after)[..n]);
    MergeSplit(p, after, stale[p].received, n);
    JoinPieces(after, merged, n);
    assert stale - {p} == map[];
  }

  /** After a broken-off stream, for files of all sizes: a complete stream of the file as it is now writes
      nothing if it has fewer chunks than before, and otherwise its first chunks,
      as many as the file had before. */
  lemma StreamAfterBrokenOff(p: Path, before: Data, after: Data, k: nat)
    requires 0 < k < Total(before)
    ensures Writes(Received(map[], Split(p, before)[..k]), Split(p, after))
            == if Total(after) < Total(before) then [] else [(p, after[..Offset(after, Total(before))])]
  {
    hide Split, Writes, Received, Total, Stale, Offset;
    BrokenOffStreamIsStale(p, before, k);
    SplitShape(p, after);
    if Total(after) < Total(before) {
      FewerChunksStall(p, before, after, k);
    } else {
      var n, frames, stale := Total(before), Split(p, after), Stale(p, before, k);
      PrefixCompletes(p, before, after, k);
      RestIsHeld(p, after, n);
      assert frames == frames[..n] + frames[n..];
      WritesConcat(stale, frames[..n], frames[n..]);
    }
  }

  lemma FewerChunksStall(p: Path, before: Data, after: Data, k: nat)
    requires 0 < k < Total(before) && Total(after) < Total(before)
    ensures Writes(Stale(p, before, k), Split(p, after)) == []
  {
    hide Split, Writes, Total, Indices, Merge;
    var frames := Split(p, after);
    SplitShape(p, after);
    StaleSize(p, before, k);
    SplitIndices(p, after, Total(after));
    assert frames[..Total(after)] == frames;
    var most := if k > Total(after) then k else Total(after);
    assert Range(k) + Range(Total(after)) == Range(most);
    RangeSize(most);
    StallsIff(Stale(p, before, k), frames, p);
  }

  /** So it stalls if and only if the file has lost chunks, and is written right if and only if the
      number of chunks is what it was; a grown file is cut off at its old number of chunks. */
  lemma WrittenRightIffSameCount(p: Path, before: Data, after: Data, k: nat)
    requires 0 < k < Total(before)
    ensures var writes := Writes(Received(map[], Split(p, before)[..k]), Split(p, after));
            && (writes == [] <==> Total(after) < Total(before))
            && (writes == [(p, after)] <==> Total(after) == Total(before))
            && (Total(after) > Total(before) ==> writes == [(p, after[..Total(before) * CHUNK_SIZE])] && writes[0].1 != after)
  {
    StreamAfterBrokenOff(p, before, after, k);
    if Total(after) == Total(before) {
      OffsetEnd(after);
      assert after[..|after|] == after;
    } else if Total(after) > Total(before) {
      assert Offset(after, Total(before)) == Total(before) * CHUNK_SIZE < |after|;
    }
  }

  // ---- Streams of two versions at once ----

  /** All pieces but the last are full. */
  predicate WellSized(received: map<int, Data>, n: nat) {
    forall i :: 0 <= i < n ==> i in received && (i < n - 1 ==> |received[i]| == CHUNK_SIZE)
  }

  lemma {:induction false} FullLength(received: map<int, Data>, n: nat)
    requires forall i :: 0 <= i < n ==> i in received && |received[i]| == CHUNK_SIZE
    ensures |Join(received, n)| == n * CHUNK_SIZE
  {
    if n > 0 {
      FullLength(received, n - 1);
    }
  }

  /** Well-sized pieces can be told from what they join to. */
  lemma {:induction false} JoinInjective(a: map<int, Data>, b: map<int, Data>, n: nat)
    requires WellSized(a, n) && WellSized(b, n)
    requires forall i :: 0 <= i < n - 1 ==> |a[i]| == |b[i]| == CHUNK_SIZE
    ensures Join(a, n) == Join(b, n) <==> forall i :: 0 <= i < n ==> a[i] == b[i]
  {
    if n > 0 {
      FullLength(a, n - 1);
      FullLength(b, n - 1);
      var x, y := Join(a, n - 1), Join(b, n - 1);
      if Join(a, n) == Join(b, n) {
        assert x == Join(a, n)[..|x|] && y == Join(b, n)[..|y|];
        assert a[n - 1] == Join(a, n)[|x|..] && b[n - 1] == Join(b, n)[|y|..];
        JoinInjective(a, b, n - 1);
      } else if forall i :: 0 <= i < n ==> a[i] == b[i] {
        JoinInjective(a, b, n - 1);
      }
    }
  }

  lemma {:induction false} MergeSound(p: Path, before: Data, after: Data, received: map<int, Data>, frames: seq<Chunk>)
    requires forall i :: 0 <= i < |frames| ==> frames[i] in Split(p, before) || frames[i] in Split(p, after)
    requires forall i :: i in received ==> 0 <= i && (received[i] == Piece(before, i) || received[i] == Piece(after, i))
    ensures var m := Merge(received, frames);
            forall i :: i in m ==> 0 <= i && (m[i] == Piece(before, i) || m[i] == Piece(after, i))
    decreases |frames|
  {
    if frames != [] {
      assert frames[0].index >= 0;
      MergeSound(p, before, after, received[frames[0].index := frames[0].content], frames[1..]);
    }
  }

  /** The pieces of a file as a map. */
  function Pieces(data: Data): map<int, Data> { map i | 0 <= i < Total(data) :: Piece(data, i) }

  /** Frames of two versions with the same number of chunks, in any order, up to the one that brings the
      last missing index: one file is written, and it is the newer version if and only
      if of every index the newer version's piece, or an equal one, came last. */
  lemma MixtureIff(p: Path, before: Data, after: Data, frames: seq<Chunk>)
    requires Total(before) == Total(after) && frames != []
    requires forall i :: 0 <= i < |frames| ==> frames[i] in Split(p, before) || frames[i] in Split(p, after)
    requires Indices(frames) == Range(Total(after)) && Indices(frames[..|frames| - 1]) != Range(Total(after))
    ensures var last := Merge(map[], frames);
            && last.Keys == Range(Total(after))
            && Writes(map[], frames) == [(p, Join(last, Total(after)))]
            && (Writes(map[], frames) == [(p, after)] <==> forall i :: 0 <= i < Total(after) ==> last[i] == Piece(after, i))
  {
    hide Split, Merge, Writes, Total, Indices, Piece, Join, Range;
    OfOnePath(p, before, after, frames);
    assert frames == frames[..|frames| - 1] + [frames[|frames| - 1]];
    LastIndexCompletes(frames[..|frames| - 1], frames[|frames| - 1], p, Total(after));
    MixtureContent(p, before, after, frames);
  }

  lemma LastIndexCompletes(most: seq<Chunk>, c: Chunk, p: Path, n: nat)
    requires n > 0 && AllOf(p, most + [c]) && (most + [c])[0].total == n
    requires Indices(most + [c]) == Range(n) && Indices(most) != Range(n)
    ensures Writes(map[], most + [c]) == [(p, Join(Merge(map[], most + [c]), n))]
  {
    hide Merge, Writes, Join, Indices, Range;
    assert forall i :: 0 <= i < |most| ==> most[i] == (most + [c])[i];
    assert (most + [c])[|most|] == c;
    RangeSize(n);
    IndicesLast(most, c);
    ProperSubsetSize(Indices(most), Range(n));
    FreshCompletes(most, c, p, n);
  }

  lemma OfOnePath(p: Path, before: Data, after: Data, frames: seq<Chunk>)
    requires Total(before) == Total(after)
    requires forall i :: 0 <= i < |frames| ==> frames[i] in Split(p, before) || frames[i] in Split(p, after)
    ensures forall i :: 0 <= i < |frames| ==> frames[i].path == p && frames[i].total == Total(after) > 0
  {
    hide Split, Total;
    SplitShape(p, before);
    SplitShape(p, after);
  }

  lemma IndicesLast(frames: seq<Chunk>, c: Chunk)
    ensures Indices(frames + [c]) == Indices(frames) + {c.index}
  {
  }

  lemma MixtureContent(p: Path, before: Data, after: Data, frames: seq<Chunk>)
    requires Total(before) == Total(after) && Indices(frames) == Range(Total(after))
    requires forall i :: 0 <= i < |frames| ==> frames[i] in Split(p, before) || frames[i] in Split(p, after)
    ensures var last := Merge(map[], frames);
            && last.Keys == Range(Total(after))
            && (Join(last, Total(after)) == after <==> forall i :: 0 <= i < Total(after) ==> last[i] == Piece(after, i))
  {
    hide Split, Merge, Join, Indices, Total, Offset, Piece;
    var n := Total(after);
    var none: map<int, Data> := map[];
    var last := Merge(none, frames);
    MergeKeys(none, frames);
    assert none.Keys + Range(n) == Range(n);
    MergeSound(p, before, after, none, frames);
    PiecesSized(before);
    PiecesSized(after);
    JoinInjective(last, Pieces(after), n);
    JoinPieces(after, Pieces(after), n);
    OffsetEnd(after);
    assert after[..|after|] == after;
  }

  lemma PiecesSized(data: Data)
    ensures forall i :: 0 <= i < Total(data) - 1 ==> |Piece(data, i)| == CHUNK_SIZE
  {
  }

  lemma ProperSubsetSize(a: set<int>, b: set<int>)
    requires a <= b && a != b
    ensures |a| < |b|
  {
    var x := Pick(b - a);
    SubsetSize(a, b - {x});
  }

  // ---- Instances ----

  lemma MixedAssembly(p: Path, x0: Data, y0: Data, x1: Data)
    ensures Writes(map[], [Chunk(p, 0, 2, x0), Chunk(p, 0, 2, y0), Chunk(p, 1, 2, x1)]) == [(p, y0 + x1)]
  {
    var a, b, c := Chunk(p, 0, 2, x0), Chunk(p, 0, 2, y0), Chunk(p, 1, 2, x1);
    var p1: Pending := map[p := Assembly(2, map[0 := x0])];
    assert Entered(map[], a) == Assembly(2, map[0 := x0]);
    assert After(map[], a) == p1;
    var p2: Pending := map[p := Assembly(2, map[0 := y0])];
    assert Entered(p1, b) == Assembly(2, map[0 := y0]);
    assert After(p1, b) == p2;
    var full: map<int, Data> := map[0 := y0, 1 := x1];
    assert Entered(p2, c) == Assembly(2, full) && |full| == 2;
    assert Join(full, 0) == [] && Join(full, 1) == y0 && Join(full, 2) == y0 + x1;
    assert [a, b, c][1..] == [b, c] && [b, c][1..] == [c] && [c][1..] == [];
    assert Writes(p2, [c]) == [(p, y0 + x1)];
    assert Writes(p1, [b, c]) == Writes(p2, [c]);
  }

  /** Two overlapping streams of a two-chunk file that changed in between are
      assembled into a mixture of both versions. */
  lemma ChangedFileMixes(p: Path, before: Data, after: Data)
    requires Total(before) == 2 && Total(after) == 2
    ensures Writes(map[], [Split(p, before)[0], Split(p, after)[0], Split(p, before)[1]])
            == [(p, Piece(after, 0) + Piece(before, 1))]
  {
    MixedAssembly(p, Piece(before, 0), Piece(after, 0), Piece(before, 1));
  }

  /** A stream cut short leaves its chunk count behind: the three-chunk case. */
  lemma ShrunkFileStalls(p: Path, before: Data, after: Data)
    requires Total(before) == 3 && Total(after) == 2
    ensures Writes(Received(map[], Split(p, before)[..2]), Split(p, after)) == []
  {
    WrittenRightIffSameCount(p, before, after, 2);
  }

  /** A file that has grown in the meantime is written without its end. */
  lemma GrownFileIsCut(p: Path, before: Data, after: Data)
    requires Total(before) == 2 && Total(after) == 3
    ensures Writes(Received(map[], Split(p, before)[..1]), Split(p, after)) == [(p, after[..2 * CHUNK_SIZE])]
  {
    WrittenRightIffSameCount(p, before, after, 1);
  }
}
