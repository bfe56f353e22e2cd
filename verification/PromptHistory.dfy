/** The prompt history: entries wait in a buffer, are taken and appended to a shared
    file under a lock, and the newest one can be undone wherever it has got to. */
module PromptHistory {
  import opened Prelude

  /** `id` stands for the object's identity, which the undo compares. */
  datatype Entry = Entry(id: nat, timestamp: int, session: nat, display: string)

  /** A line of the file; other processes append to it too. */
  datatype Line = Own(entry: Entry) | Foreign(entry: Entry)

  datatype History = History(
    pending: seq<Entry>,               // pendingEntries
    last: Option<Entry>,               // lastAddedEntry
    skipped: set<int>,                 // skippedTimestamps
    inFlight: Option<seq<Entry>>,      // taken under the lock, not yet appended
    disk: seq<Line>,
    next: nat,
    session: nat)

  datatype Step =
    | Add(display: string, timestamp: int)
    | Take
    | Append(ok: bool)
    | Undo
    | Clear
    | External(entry: Entry)
    | Switch(session: nat)

  predicate Enabled(h: History, step: Step) {
    match step
    case Take => h.inFlight.None?  // the file lock admits one flush at a time
    case Append(_) => h.inFlight.Some?
    case _ => true
  }

  function OwnLines(entries: seq<Entry>): (lines: seq<Line>)
    ensures |lines| == |entries| && forall i :: 0 <= i < |lines| ==> lines[i] == Own(entries[i])
  {
    seq(|entries|, i requires 0 <= i < |entries| => Own(entries[i]))
  }

  /** The position of the last occurrence, or -1. */
  function LastIndexOf(entries: seq<Entry>, e: Entry): (i: int)
    ensures -1 <= i < |entries|
    ensures i >= 0 ==> entries[i] == e
    ensures forall j :: i < j < |entries| ==> entries[j] != e
  {
    if entries == [] then -1
    else if entries[|entries| - 1] == e then |entries| - 1
    else LastIndexOf(entries[..|entries| - 1], e)
  }

  function Next(h: History, step: Step): History
    requires Enabled(h, step)
  {
    match step
    case Add(display, timestamp) =>
      var e := Entry(h.next, timestamp, h.session, display);
      h.(pending := h.pending + [e], last := Some(e), next := h.next + 1)
    case Take => h.(inFlight := Some(h.pending), pending := [])
    case Append(ok) => h.(inFlight := None, disk := if ok then h.disk + OwnLines(h.inFlight.value) else h.disk)
    case Undo =>
      if h.last.None? then h
      else
        var i := LastIndexOf(h.pending, h.last.value);
        if i >= 0 then h.(last := None, pending := h.pending[..i] + h.pending[i + 1..])
        else h.(last := None, skipped := h.skipped + {h.last.value.timestamp})
    case Clear => h.(pending := [], last := None, skipped := {})
    case External(e) => h.(disk := h.disk + [Foreign(e)])
    case Switch(session) => h.(session := session)
  }

  function Reverse<T>(s: seq<T>): seq<T> {
    if s == [] then [] else [s[|s| - 1]] + Reverse(s[..|s| - 1])
  }

  predicate Hidden(h: History, line: Line) {
    line.entry.session == h.session && line.entry.timestamp in h.skipped
  }

  function Visible(h: History, lines: seq<Line>): seq<Line> {
    if lines == [] then []
    else Visible(h, lines[..|lines| - 1]) + if Hidden(h, lines[|lines| - 1]) then [] else [lines[|lines| - 1]]
  }

  /** One uninterrupted pass of the log entry reader, newest first. */
  function Read(h: History): seq<Line> { Reverse(OwnLines(h.pending)) + Reverse(Visible(h, h.disk)) }

  // ---- The module state, updated in place ----

  class HistoryBuffer {
    var pendingEntries: seq<Entry>
    var lastAddedEntry: Option<Entry>
    var skippedTimestamps: set<int>
    var inFlight: Option<seq<Entry>>
    var file: seq<Line>
    var nextId: nat
    var session: nat

    function State(): History
      reads this
    {
      History(pendingEntries, lastAddedEntry, skippedTimestamps, inFlight, file, nextId, session)
    }

    method AddToPromptHistory(display: string, timestamp: int)
      modifies this
      ensures State() == Next(old(State()), Add(display, timestamp))
    {
      var logEntry := Entry(nextId, timestamp, session, display);
      nextId := nextId + 1;
      pendingEntries := pendingEntries + [logEntry];
      lastAddedEntry := Some(logEntry);
    }

    /** The middle of a flush: with the lock held, the buffer becomes the batch. */
    method TakeBatch()
      requires inFlight.None?
      modifies this
      ensures State() == Next(old(State()), Take)
    {
      inFlight := Some(pendingEntries);
      pendingEntries := [];
    }

    /** The end of a flush; a failed append is logged and the batch is gone. */
    method AppendBatch(ok: bool)
      requires inFlight.Some?
      modifies this
      ensures State() == Next(old(State()), Append(ok))
    {
      if ok {
        file := file + OwnLines(inFlight.value);
      }
      inFlight := None;
    }

    method RemoveLastFromHistory()
      modifies this
      ensures State() == Next(old(State()), Undo)
    {
      if lastAddedEntry.None? { return; }
      var entry := lastAddedEntry.value;
      lastAddedEntry := None;
      var idx := FindLast(entry);
      if idx != -1 {
        pendingEntries := pendingEntries[..idx] + pendingEntries[idx + 1..];
      } else {
        skippedTimestamps := skippedTimestamps + {entry.timestamp};
      }
    }

    method FindLast(entry: Entry) returns (idx: int)
      ensures idx == LastIndexOf(pendingEntries, entry)
    {
      idx := |pendingEntries| - 1;
      assert pendingEntries[..idx + 1] == pendingEntries;
      while idx >= 0 && pendingEntries[idx] != entry
        invariant -1 <= idx < |pendingEntries|
        invariant LastIndexOf(pendingEntries, entry) == LastIndexOf(pendingEntries[..idx + 1], entry)
      {
        assert pendingEntries[..idx + 1][..idx] == pendingEntries[..idx];
        idx := idx - 1;
      }
    }

    method ClearPendingHistoryEntries()
      modifies this
      ensures State() == Next(old(State()), Clear)
    {
      pendingEntries := [];
      lastAddedEntry := None;
      skippedTimestamps := {};
    }

    method ReadEntries() returns (lines: seq<Line>)
      ensures lines == Read(State())
    {
      lines := ReadPending();
      ghost var first := lines;
      var i := |file| - 1;
      assert file[..i + 1] == file;
      while i >= 0
        invariant -1 <= i < |file|
        invariant lines + Reverse(Visible(State(), file[..i + 1])) == first + Reverse(Visible(State(), file))
      {
        ReadOneMore(State(), file, i, lines);
        if !Hidden(State(), file[i]) {
          lines := lines + [file[i]];
        }
        i := i - 1;
      }
      assert lines + Reverse(Visible(State(), [])) == lines;
      assert file[..0] == [];
    }

    /** Entries that have yet to be flushed. */
    method ReadPending() returns (lines: seq<Line>)
      ensures lines == Reverse(OwnLines(pendingEntries))
    {
      lines := [];
      var i := |pendingEntries| - 1;
      assert pendingEntries[..i + 1] == pendingEntries;
      while i >= 0
        invariant -1 <= i < |pendingEntries|
        invariant lines + Reverse(OwnLines(pendingEntries[..i + 1])) == Reverse(OwnLines(pendingEntries))
      {
        assert OwnLines(pendingEntries[..i + 1])[..i] == OwnLines(pendingEntries[..i]);
        assert lines + Reverse(OwnLines(pendingEntries[..i + 1]))
            == (lines + [Own(pendingEntries[i])]) + Reverse(OwnLines(pendingEntries[..i]));
        lines := lines + [Own(pendingEntries[i])];
        i := i - 1;
      }
    }
  }

  lemma ReadOneMore(h: History, file: seq<Line>, i: nat, lines: seq<Line>)
    requires i < |file|
    ensures lines + Reverse(Visible(h, file[..i + 1]))
            == (if Hidden(h, file[i]) then lines else lines + [file[i]]) + Reverse(Visible(h, file[..i]))
  {
    assert file[..i + 1][..i] == file[..i];
    var rest := Visible(h, file[..i]);
    if Hidden(h, file[i]) {
      assert rest + [] == rest;
    } else {
      assert (rest + [file[i]])[..|rest|] == rest;
      assert lines + ([file[i]] + Reverse(rest)) == (lines + [file[i]]) + Reverse(rest);
    }
  }

  // ---- The ledger: what became of every entry ever added ----

  /** `popped`: undone in the buffer. `lost`: a failed append. `cleared`: dropped by
      `Clear`. `struck`: undone too late for the buffer, since the last `Clear`. */
  datatype Ledger = Ledger(added: seq<Entry>, popped: set<nat>, lost: set<nat>, cleared: set<nat>, struck: seq<Entry>)

  function Ids(entries: seq<Entry>): set<nat> { set e <- entries :: e.id }

  function Batch(h: History): seq<Entry> { if h.inFlight.Some? then h.inFlight.value else [] }

  function Record(l: Ledger, h: History, step: Step): Ledger
    requires Enabled(h, step)
  {
    match step
    case Add(_, _) => l.(added := l.added + [Next(h, step).last.value])
    case Append(false) => l.(lost := l.lost + Ids(Batch(h)))
    case Undo =>
      if h.last.None? then l
      else if LastIndexOf(h.pending, h.last.value) >= 0 then l.(popped := l.popped + {h.last.value.id})
      else l.(struck := l.struck + [h.last.value])
    case Clear => l.(cleared := l.cleared + Ids(h.pending), struck := [])
    case _ => l
  }

  function OwnOf(lines: seq<Line>): seq<Entry> {
    if lines == [] then []
    else OwnOf(lines[..|lines| - 1]) + if lines[|lines| - 1].Own? then [lines[|lines| - 1].entry] else []
  }

  /** The entries whose id is not among `gone`, in order. */
  function Keep(entries: seq<Entry>, gone: set<nat>): seq<Entry> {
    if entries == [] then []
    else Keep(entries[..|entries| - 1], gone) + if entries[|entries| - 1].id in gone then [] else [entries[|entries| - 1]]
  }

  const NOTHING_ADDED := Ledger([], {}, {}, {}, [])

  function Gone(l: Ledger): set<nat> { l.popped + l.lost + l.cleared }

  /** All entries still around: on disk, then in flight, then in the buffer. */
  function Live(h: History): seq<Entry> { OwnOf(h.disk) + Batch(h) + h.pending }

  predicate Numbered(l: Ledger) { forall i :: 0 <= i < |l.added| ==> l.added[i].id == i }

  predicate Known(l: Ledger, e: Entry) { e.id < |l.added| && l.added[e.id] == e }

  /** Conservation. What is on disk, in flight and pending, in this order, is exactly what
      was added less what was undone in the buffer, lost or cleared, in the order added. */
  ghost predicate Conserved(h: History, l: Ledger) {
    && h.next == |l.added| && Numbered(l)
    && Live(h) == Keep(l.added, Gone(l))
    && l.popped !! l.lost !! l.cleared
    && (forall i <- Gone(l) :: i < |l.added|)
  }

  /** What undo needs to know about the newest entry and about those it undid. */
  ghost predicate Undoable(h: History, l: Ledger) {
    && (forall t :: t in h.skipped <==> exists k :: 0 <= k < |l.struck| && l.struck[k].timestamp == t)
    && (forall k :: 0 <= k < |l.struck| ==> Known(l, l.struck[k]) && l.struck[k] !in h.pending)
    && (h.last.Some? ==> Known(l, h.last.value))
  }

  // ---- Filtering ----

  lemma {:induction false} KeepConcat(a: seq<Entry>, b: seq<Entry>, gone: set<nat>)
    ensures Keep(a + b, gone) == Keep(a, gone) + Keep(b, gone)
    decreases |b|
  {
    if b == [] {
      assert a + b == a;
    } else {
      assert (a + b)[..|a + b| - 1] == a + b[..|b| - 1];
      KeepConcat(a, b[..|b| - 1], gone);
    }
  }

  lemma {:induction false} KeepKeep(s: seq<Entry>, a: set<nat>, b: set<nat>)
    ensures Keep(Keep(s, a), b) == Keep(s, a + b)
  {
    if s != [] {
      var init, x := s[..|s| - 1], s[|s| - 1];
      KeepKeep(init, a, b);
      if x.id in a {
        assert Keep(init, a) + [] == Keep(init, a);
      } else {
        KeepConcat(Keep(init, a), [x], b);
        assert [x][..0] == [];
      }
    }
  }

  lemma {:induction false} KeepUntouched(s: seq<Entry>, gone: set<nat>)
    requires forall i :: 0 <= i < |s| ==> s[i].id !in gone
    ensures Keep(s, gone) == s
  {
    if s != [] {
      KeepUntouched(s[..|s| - 1], gone);
    }
  }

  lemma {:induction false} KeepNothing(s: seq<Entry>, gone: set<nat>)
    requires forall i :: 0 <= i < |s| ==> s[i].id in gone
    ensures Keep(s, gone) == []
  {
    if s != [] {
      KeepNothing(s[..|s| - 1], gone);
    }
  }

  predicate Rising(s: seq<Entry>) { forall i, j :: 0 <= i < j < |s| ==> s[i].id < s[j].id }

  lemma {:induction false} KeepMember(s: seq<Entry>, gone: set<nat>)
    ensures forall e :: e in Keep(s, gone) <==> e in s && e.id !in gone
  {
    if s != [] {
      KeepMember(s[..|s| - 1], gone);
      assert s == s[..|s| - 1] + [s[|s| - 1]];
    }
  }

  lemma {:induction false} KeepRising(s: seq<Entry>, gone: set<nat>)
    requires Rising(s)
    ensures Rising(Keep(s, gone))
  {
    if s != [] {
      var init, x := s[..|s| - 1], s[|s| - 1];
      KeepRising(init, gone);
      var kept := Keep(init, gone);
      forall i | 0 <= i < |kept| ensures kept[i].id < x.id {
        KeepMember(init, gone);
        assert kept[i] in init;
        var j :| 0 <= j < |init| && init[j] == kept[i];
        assert s[j].id < s[|s| - 1].id;
      }
    }
  }

  lemma {:induction false} OwnConcat(a: seq<Line>, b: seq<Line>)
    ensures OwnOf(a + b) == OwnOf(a) + OwnOf(b)
    decreases |b|
  {
    if b == [] {
      assert a + b == a;
    } else {
      assert (a + b)[..|a + b| - 1] == a + b[..|b| - 1];
      OwnConcat(a, b[..|b| - 1]);
    }
  }

  lemma {:induction false} OwnOfOwn(entries: seq<Entry>)
    ensures OwnOf(OwnLines(entries)) == entries
  {
    if entries != [] {
      var init := entries[..|entries| - 1];
      OwnOfOwn(init);
      assert OwnLines(entries)[..|entries| - 1] == OwnLines(init);
    }
  }

  // ---- Conservation ----

  lemma LiveRises(h: History, l: Ledger)
    requires Conserved(h, l)
    ensures Rising(Live(h))
    ensures forall e :: e in Live(h) <==> Known(l, e) && e.id !in Gone(l)
  {
    KeepRising(l.added, Gone(l));
    KeepMember(l.added, Gone(l));
    forall e ensures e in l.added <==> Known(l, e) {
      if e in l.added {
        var i :| 0 <= i < |l.added| && l.added[i] == e;
      }
    }
  }

  /** Taking the entries of `delta` out of the live ones is adding them to the gone. */
  lemma LiveLess(h: History, l: Ledger, delta: set<nat>)
    requires Conserved(h, l)
    ensures Keep(OwnOf(h.disk), delta) + Keep(Batch(h), delta) + Keep(h.pending, delta) == Keep(l.added, Gone(l) + delta)
  {
    KeepKeep(l.added, Gone(l), delta);
    KeepConcat(OwnOf(h.disk) + Batch(h), h.pending, delta);
    KeepConcat(OwnOf(h.disk), Batch(h), delta);
  }

  /** Three stretches of a rising sequence share no id. */
  lemma StretchesApart(d: seq<Entry>, b: seq<Entry>, p: seq<Entry>)
    requires Rising(d + b + p)
    ensures forall x <- d, y <- b :: x.id < y.id
    ensures forall x <- d, y <- p :: x.id < y.id
    ensures forall x <- b, y <- p :: x.id < y.id
  {
    var all := d + b + p;
    forall x, y | x in d && y in b ensures x.id < y.id {
      var i :| 0 <= i < |d| && d[i] == x;
      var j :| 0 <= j < |b| && b[j] == y;
      assert all[i] == x && all[|d| + j] == y;
    }
    forall x, y | x in d && y in p ensures x.id < y.id {
      var i :| 0 <= i < |d| && d[i] == x;
      var j :| 0 <= j < |p| && p[j] == y;
      assert all[i] == x && all[|d| + |b| + j] == y;
    }
    forall x, y | x in b && y in p ensures x.id < y.id {
      var i :| 0 <= i < |b| && b[i] == x;
      var j :| 0 <= j < |p| && p[j] == y;
      assert all[|d| + i] == x && all[|d| + |b| + j] == y;
    }
  }

  lemma KeepAllButMiddle(d: seq<Entry>, b: seq<Entry>, p: seq<Entry>)
    requires Rising(d + b + p)
    ensures Keep(d, Ids(b)) == d && Keep(b, Ids(b)) == [] && Keep(p, Ids(b)) == p
  {
    StretchesApart(d, b, p);
    KeepUntouched(d, Ids(b));
    KeepNothing(b, Ids(b));
    KeepUntouched(p, Ids(b));
  }

  lemma KeepAllButEnd(d: seq<Entry>, b: seq<Entry>, p: seq<Entry>)
    requires Rising(d + b + p)
    ensures Keep(d, Ids(p)) == d && Keep(b, Ids(p)) == b && Keep(p, Ids(p)) == []
  {
    StretchesApart(d, b, p);
    KeepUntouched(d, Ids(p));
    KeepUntouched(b, Ids(p));
    KeepNothing(p, Ids(p));
  }

  lemma {:induction false} KeepAllButOne(s: seq<Entry>, i: nat)
    requires i < |s| && Rising(s)
    ensures Keep(s, {s[i].id}) == s[..i] + s[i + 1..]
  {
    var init := s[..|s| - 1];
    if i == |s| - 1 {
      KeepUntouched(init, {s[i].id});
    } else {
      KeepAllButOne(init, i);
      assert init[..i] == s[..i] && s[i + 1..] == init[i + 1..] + [s[|s| - 1]];
    }
  }

  lemma PendingRises(d: seq<Entry>, b: seq<Entry>, p: seq<Entry>)
    requires Rising(d + b + p)
    ensures Rising(p)
  {
    var all := d + b + p;
    forall i, j | 0 <= i < j < |p| ensures p[i].id < p[j].id {
      assert all[|d| + |b| + i] == p[i] && all[|d| + |b| + j] == p[j];
    }
  }

  lemma FailedAppendConserves(h: History, l: Ledger)
    requires Conserved(h, l) && h.inFlight.Some?
    ensures Conserved(Next(h, Append(false)), Record(l, h, Append(false)))
  {
    var delta := Ids(Batch(h));
    LiveRises(h, l);
    assert forall b <- Batch(h) :: b in Live(h);
    KeepAllButMiddle(OwnOf(h.disk), Batch(h), h.pending);
    LiveLess(h, l, delta);
    assert Gone(Record(l, h, Append(false))) == Gone(l) + delta;
  }

  lemma ClearConserves(h: History, l: Ledger)
    requires Conserved(h, l)
    ensures Conserved(Next(h, Clear), Record(l, h, Clear))
  {
    var delta := Ids(h.pending);
    LiveRises(h, l);
    assert forall p <- h.pending :: p in Live(h);
    KeepAllButEnd(OwnOf(h.disk), Batch(h), h.pending);
    LiveLess(h, l, delta);
    assert Gone(Record(l, h, Clear)) == Gone(l) + delta;
  }

  lemma KeepAllButOneAtEnd(d: seq<Entry>, b: seq<Entry>, p: seq<Entry>, i: nat)
    requires Rising(d + b + p) && i < |p|
    ensures Keep(d, {p[i].id}) == d && Keep(b, {p[i].id}) == b && Keep(p, {p[i].id}) == p[..i] + p[i + 1..]
  {
    StretchesApart(d, b, p);
    PendingRises(d, b, p);
    assert p[i] in p;
    KeepUntouched(d, {p[i].id});
    KeepUntouched(b, {p[i].id});
    KeepAllButOne(p, i);
  }

  lemma PopConserves(h: History, l: Ledger)
    requires Conserved(h, l) && h.last.Some? && LastIndexOf(h.pending, h.last.value) >= 0
    ensures Conserved(Next(h, Undo), Record(l, h, Undo))
  {
    hide OwnOf, Keep;
    var i := LastIndexOf(h.pending, h.last.value);
    var delta := {h.pending[i].id};
    LiveRises(h, l);
    assert h.pending[i] in Live(h);
    KeepAllButOneAtEnd(OwnOf(h.disk), Batch(h), h.pending, i);
    LiveLess(h, l, delta);
    assert Gone(Record(l, h, Undo)) == Gone(l) + delta;
  }

  lemma AddConserves(h: History, l: Ledger, display: string, timestamp: int)
    requires Conserved(h, l)
    ensures Conserved(Next(h, Add(display, timestamp)), Record(l, h, Add(display, timestamp)))
  {
    var e := Next(h, Add(display, timestamp)).last.value;
    assert (l.added + [e])[..|l.added|] == l.added;
    assert Live(Next(h, Add(display, timestamp))) == Live(h) + [e];
  }

  lemma AppendConserves(h: History, l: Ledger)
    requires Conserved(h, l) && h.inFlight.Some?
    ensures Conserved(Next(h, Append(true)), Record(l, h, Append(true)))
  {
    hide Keep;
    OwnConcat(h.disk, OwnLines(Batch(h)));
    OwnOfOwn(Batch(h));
    assert OwnOf(h.disk) + Batch(h) + [] + h.pending == Live(h);
  }

  lemma TakeConserves(h: History, l: Ledger)
    requires Conserved(h, l) && h.inFlight.None?
    ensures Conserved(Next(h, Take), Record(l, h, Take))
  {
    hide Keep, OwnOf;
    assert OwnOf(h.disk) + [] + h.pending == OwnOf(h.disk) + h.pending + [];
  }

  lemma ExternalConserves(h: History, l: Ledger, e: Entry)
    requires Conserved(h, l)
    ensures Conserved(Next(h, External(e)), Record(l, h, External(e)))
  {
    hide Keep;
    OwnConcat(h.disk, [Foreign(e)]);
    assert [Foreign(e)][..0] == [];
    assert OwnOf(h.disk) + [] == OwnOf(h.disk);
  }

  lemma StepConserves(h: History, l: Ledger, step: Step)
    requires Conserved(h, l) && Enabled(h, step)
    ensures Conserved(Next(h, step), Record(l, h, step))
  {
    match step {
      case Add(display, timestamp) => AddConserves(h, l, display, timestamp);
      case Append(false) => FailedAppendConserves(h, l);
      case Undo =>
        if h.last.Some? && LastIndexOf(h.pending, h.last.value) >= 0 {
          PopConserves(h, l);
        }
      case Clear => ClearConserves(h, l);
      case Switch(_) =>
      case Take => TakeConserves(h, l);
      case Append(true) => AppendConserves(h, l);
      case External(e) => ExternalConserves(h, l, e);
    }
  }

  lemma PopKeepsUndoable(h: History, l: Ledger)
    requires Undoable(h, l) && h.last.Some? && LastIndexOf(h.pending, h.last.value) >= 0
    ensures Undoable(Next(h, Undo), Record(l, h, Undo))
  {
    assert forall e <- Next(h, Undo).pending :: e in h.pending;
  }

  lemma StrikeKeepsUndoable(h: History, l: Ledger)
    requires Undoable(h, l) && h.last.Some? && LastIndexOf(h.pending, h.last.value) < 0
    ensures Undoable(Next(h, Undo), Record(l, h, Undo))
  {
    StrikeRecorded(h, l);
    var struck := Record(l, h, Undo).struck;
    forall k | 0 <= k < |struck| ensures Known(l, struck[k]) && struck[k] !in h.pending {
      assert k < |l.struck| ==> struck[k] == l.struck[k];
    }
  }

  lemma AddKeepsUndoable(h: History, l: Ledger, display: string, timestamp: int)
    requires h.next == |l.added| && Undoable(h, l)
    ensures Undoable(Next(h, Add(display, timestamp)), Record(l, h, Add(display, timestamp)))
  {
    var l' := Record(l, h, Add(display, timestamp));
    assert forall k :: 0 <= k < |l.struck| ==> l.struck[k].id < |l.added|;
    assert l'.struck == l.struck;
  }

  lemma StepKeepsUndoable(h: History, l: Ledger, step: Step)
    requires h.next == |l.added| && Undoable(h, l) && Enabled(h, step)
    ensures Undoable(Next(h, step), Record(l, h, step))
  {
    match step {
      case Add(display, timestamp) => AddKeepsUndoable(h, l, display, timestamp);
      case Undo =>
        if h.last.Some? {
          if LastIndexOf(h.pending, h.last.value) >= 0 {
            PopKeepsUndoable(h, l);
          } else {
            StrikeKeepsUndoable(h, l);
          }
        }
      case _ =>
    }
  }

  lemma StrikeRecorded(h: History, l: Ledger)
    requires Undoable(h, l) && h.last.Some? && LastIndexOf(h.pending, h.last.value) < 0
    ensures forall t :: t in Next(h, Undo).skipped <==>
                        exists k :: 0 <= k < |Record(l, h, Undo).struck| && Record(l, h, Undo).struck[k].timestamp == t
  {
    var struck := Record(l, h, Undo).struck;
    forall t ensures t in Next(h, Undo).skipped <==> exists k :: 0 <= k < |struck| && struck[k].timestamp == t {
      if t == h.last.value.timestamp {
        assert struck[|l.struck|].timestamp == t;
      } else if t in h.skipped {
        var k :| 0 <= k < |l.struck| && l.struck[k].timestamp == t;
        assert struck[k].timestamp == t;
      }
    }
  }

  // ---- Whole runs ----

  predicate CanRun(h: History, steps: seq<Step>)
    decreases |steps|
  {
    steps == [] || (Enabled(h, steps[0]) && CanRun(Next(h, steps[0]), steps[1..]))
  }

  function Run(h: History, steps: seq<Step>): History
    requires CanRun(h, steps)
    decreases |steps|
  {
    if steps == [] then h else Run(Next(h, steps[0]), steps[1..])
  }

  function Audit(h: History, l: Ledger, steps: seq<Step>): Ledger
    requires CanRun(h, steps)
    decreases |steps|
  {
    if steps == [] then l else Audit(Next(h, steps[0]), Record(l, h, steps[0]), steps[1..])
  }

  function Fresh(session: nat, disk: seq<Line>): History { History([], None, {}, None, disk, 0, session) }

  lemma {:induction false} RunKeepsConserved(h: History, l: Ledger, steps: seq<Step>)
    requires Conserved(h, l) && Undoable(h, l) && CanRun(h, steps)
    ensures Conserved(Run(h, steps), Audit(h, l, steps)) && Undoable(Run(h, steps), Audit(h, l, steps))
    decreases |steps|
  {
    if steps != [] {
      StepConserves(h, l, steps[0]);
      StepKeepsUndoable(h, l, steps[0]);
      RunKeepsConserved(Next(h, steps[0]), Record(l, h, steps[0]), steps[1..]);
    }
  }

  predicate Foreigners(disk: seq<Line>) { forall line <- disk :: line.Foreign? }

  lemma {:induction false} ForeignersHoldNothing(disk: seq<Line>)
    requires Foreigners(disk)
    ensures OwnOf(disk) == []
  {
    if disk != [] {
      assert disk[|disk| - 1] in disk;
      ForeignersHoldNothing(disk[..|disk| - 1]);
      assert OwnOf(disk[..|disk| - 1]) + [] == [];
    }
  }

  /** A fresh process starts with an empty ledger, whatever others have written. */
  lemma StartConserved(session: nat, disk: seq<Line>)
    requires Foreigners(disk)
    ensures Conserved(Fresh(session, disk), NOTHING_ADDED)
    ensures Undoable(Fresh(session, disk), NOTHING_ADDED)
  {
    ForeignersHoldNothing(disk);
  }

  // ---- What a read returns ----

  lemma {:induction false} ReverseMember<T>(s: seq<T>)
    ensures forall x :: x in Reverse(s) <==> x in s
  {
    if s != [] {
      ReverseMember(s[..|s| - 1]);
      assert s == s[..|s| - 1] + [s[|s| - 1]];
    }
  }

  lemma {:induction false} VisibleMember(h: History, lines: seq<Line>)
    ensures forall line :: line in Visible(h, lines) <==> line in lines && !Hidden(h, line)
  {
    if lines != [] {
      VisibleMember(h, lines[..|lines| - 1]);
      assert lines == lines[..|lines| - 1] + [lines[|lines| - 1]];
    }
  }

  lemma {:induction false} OwnMember(lines: seq<Line>)
    ensures forall e :: e in OwnOf(lines) <==> Own(e) in lines
  {
    if lines != [] {
      OwnMember(lines[..|lines| - 1]);
      assert lines == lines[..|lines| - 1] + [lines[|lines| - 1]];
    }
  }

  /** Entries in flight are in neither place, so no read shows them. */
  lemma ReadMember(h: History, line: Line)
    ensures line in Read(h) <==> (line.Own? && line.entry in h.pending) || (line in h.disk && !Hidden(h, line))
  {
    ReverseMember(OwnLines(h.pending));
    ReverseMember(Visible(h, h.disk));
    VisibleMember(h, h.disk);
    if line.Own? && line.entry in h.pending {
      var i :| 0 <= i < |h.pending| && h.pending[i] == line.entry;
      assert OwnLines(h.pending)[i] == line;
    }
  }

  predicate Undone(l: Ledger, e: Entry) { e.id in l.popped || e in l.struck }

  lemma UndoneIsNotRead(h: History, l: Ledger, e: Entry)
    requires Conserved(h, l) && Undoable(h, l) && Known(l, e)
    requires Undone(l, e) && e.session == h.session
    ensures Own(e) !in Read(h)
  {
    ReadMember(h, Own(e));
    LiveRises(h, l);
    OwnMember(h.disk);
    if e in l.struck {
      var k :| 0 <= k < |l.struck| && l.struck[k] == e;
    } else {
      assert e !in Live(h);
    }
  }

  predicate NoClear(steps: seq<Step>) { forall step <- steps :: !step.Clear? }

  lemma {:induction false} UndoneStays(h: History, l: Ledger, steps: seq<Step>, e: Entry)
    requires CanRun(h, steps) && NoClear(steps) && Known(l, e) && Undone(l, e)
    ensures Known(Audit(h, l, steps), e) && Undone(Audit(h, l, steps), e)
    decreases |steps|
  {
    if steps != [] {
      assert steps[0] in steps;
      UndoneStays(Next(h, steps[0]), Record(l, h, steps[0]), steps[1..], e);
    }
  }

  lemma UndoneForGoodAt(h: History, l: Ledger, steps: seq<Step>)
    requires Conserved(h, l) && Undoable(h, l) && h.last.Some?
    requires CanRun(Next(h, Undo), steps) && NoClear(steps)
    ensures var later := Run(Next(h, Undo), steps);
            later.session == h.last.value.session ==> Own(h.last.value) !in Read(later)
  {
    var e := h.last.value;
    var h', l' := Next(h, Undo), Record(l, h, Undo);
    StepConserves(h, l, Undo);
    StepKeepsUndoable(h, l, Undo);
    assert Undone(l', e) by {
      if LastIndexOf(h.pending, e) < 0 {
        assert l'.struck[|l.struck|] == e;
      }
    }
    RunKeepsConserved(h', l', steps);
    UndoneStays(h', l', steps, e);
    if Run(h', steps).session == e.session {
      UndoneIsNotRead(Run(h', steps), Audit(h', l', steps), e);
    }
  }

  lemma HiddenExactlyAt(h: History, l: Ledger, line: Line)
    requires Conserved(h, l) && Undoable(h, l) && line in h.disk
    ensures line !in Read(h) <==>
            line.entry.session == h.session && exists k :: 0 <= k < |l.struck| && l.struck[k].timestamp == line.entry.timestamp
  {
    ReadMember(h, line);
    if line.Own? {
      OwnMember(h.disk);
      StretchesApartIn(h, l);
      assert line.entry in OwnOf(h.disk);
    }
  }

  lemma StretchesApartIn(h: History, l: Ledger)
    requires Conserved(h, l)
    ensures forall x <- OwnOf(h.disk), y <- h.pending :: x.id < y.id
    ensures forall x <- OwnOf(h.disk), y <- Batch(h) :: x.id < y.id
    ensures forall x <- Batch(h), y <- h.pending :: x.id < y.id
  {
    LiveRises(h, l);
    StretchesApart(OwnOf(h.disk), Batch(h), h.pending);
  }

  lemma AddedAndFlushed(h: History, display: string, timestamp: int)
    requires h.pending == [] && h.inFlight.None?
    ensures var steps := [Add(display, timestamp), Take, Append(true)];
            var e := Entry(h.next, timestamp, h.session, display);
            CanRun(h, steps)
            && Run(h, steps) == h.(last := Some(e), next := h.next + 1, disk := h.disk + [Own(e)])
  {
    var steps := [Add(display, timestamp), Take, Append(true)];
    var e := Entry(h.next, timestamp, h.session, display);
    var h1 := Next(h, Add(display, timestamp));
    var h2 := Next(h1, Take);
    assert h1.pending == [e] && OwnLines([e]) == [Own(e)];
    assert steps[1..] == [Take, Append(true)] && steps[1..][1..] == [Append(true)] && [Append(true)][1..] == [];
    RunFirst(h, steps);
    RunFirst(h1, steps[1..]);
    RunFirst(h2, [Append(true)]);
  }

  /** Two entries of one millisecond: undoing the second hides the first as well. */
  lemma SameMillisecondHidesBoth(first: string, second: string, timestamp: int)
    ensures var flushed := [Take, Append(true)];
            var h0 := Fresh(0, []);
            && CanRun(h0, [Add(first, timestamp)] + flushed)
            && var h1 := Run(h0, [Add(first, timestamp)] + flushed);
            && CanRun(h1, [Add(second, timestamp)] + flushed)
            && var h2 := Run(h1, [Add(second, timestamp)] + flushed);
            && Enabled(h2, Undo) && Read(Next(h2, Undo)) == []
  {
    hide CanRun, Run;
    var h0 := Fresh(0, []);
    assert [Add(first, timestamp)] + [Take, Append(true)] == [Add(first, timestamp), Take, Append(true)];
    AddedAndFlushed(h0, first, timestamp);
    var h1 := Run(h0, [Add(first, timestamp), Take, Append(true)]);
    assert [Add(second, timestamp)] + [Take, Append(true)] == [Add(second, timestamp), Take, Append(true)];
    AddedAndFlushed(h1, second, timestamp);
    var h2 := Run(h1, [Add(second, timestamp), Take, Append(true)]);
    NothingVisible(Next(h2, Undo), h2.disk);
  }

  lemma {:induction false} NothingVisible(h: History, lines: seq<Line>)
    requires forall i :: 0 <= i < |lines| ==> Hidden(h, lines[i])
    ensures Visible(h, lines) == []
  {
    if lines != [] {
      NothingVisible(h, lines[..|lines| - 1]);
    }
  }

  lemma RunFirst(h: History, steps: seq<Step>)
    requires steps != [] && Enabled(h, steps[0])
    ensures CanRun(h, steps) == CanRun(Next(h, steps[0]), steps[1..])
    ensures CanRun(h, steps) ==> Run(h, steps) == Run(Next(h, steps[0]), steps[1..])
  {
  }

  /** Clearing forgets which lines were undone: one already on disk comes back. */
  lemma ClearBringsBack(h: History, e: Entry)
    requires Own(e) in h.disk
    ensures Own(e) in Read(Next(h, Clear))
  {
    ReadMember(Next(h, Clear), Own(e));
  }

  // ---- The exact result of a read ----

  lemma {:induction false} VisibleKeeps(h: History, lines: seq<Line>, struck: seq<Entry>)
    requires forall line <- lines | line.Own? :: Hidden(h, line) <==> line.entry.id in Ids(struck)
    ensures OwnOf(Visible(h, lines)) == Keep(OwnOf(lines), Ids(struck))
  {
    if lines != [] {
      var init, line := lines[..|lines| - 1], lines[|lines| - 1];
      VisibleKeeps(h, init, struck);
      assert line in lines;
      OwnConcat(Visible(h, init), if Hidden(h, line) then [] else [line]);
      KeepConcat(OwnOf(init), if line.Own? then [line.entry] else [], Ids(struck));
      assert [line][..0] == [] && (line.Own? ==> [line.entry][..0] == []);
    }
  }

  lemma {:induction false} OwnReverse(lines: seq<Line>)
    ensures OwnOf(Reverse(lines)) == Reverse(OwnOf(lines))
  {
    if lines != [] {
      var init, line := lines[..|lines| - 1], lines[|lines| - 1];
      OwnReverse(init);
      OwnConcat([line], Reverse(init));
      assert [line][..0] == [];
      if line.Own? {
        assert (OwnOf(init) + [line.entry])[..|OwnOf(init)|] == OwnOf(init);
      } else {
        assert OwnOf(init) + [] == OwnOf(init);
      }
    }
  }

  lemma {:induction false} ReverseConcat<T>(a: seq<T>, b: seq<T>)
    ensures Reverse(a + b) == Reverse(b) + Reverse(a)
    decreases |b|
  {
    if b == [] {
      assert a + b == a;
    } else {
      assert (a + b)[..|a + b| - 1] == a + b[..|b| - 1];
      ReverseConcat(a, b[..|b| - 1]);
    }
  }

  /** No two entries of this process share a timestamp, and the session has not changed. */
  predicate OneSessionDistinctTimes(h: History, l: Ledger) {
    && (forall e <- l.added :: e.session == h.session)
    && (forall i, j :: 0 <= i < j < |l.added| ==> l.added[i].timestamp != l.added[j].timestamp)
  }

  lemma HiddenIsStruck(h: History, l: Ledger, line: Line)
    requires Conserved(h, l) && Undoable(h, l) && OneSessionDistinctTimes(h, l)
    requires line in h.disk && line.Own?
    ensures Hidden(h, line) <==> line.entry.id in Ids(l.struck)
  {
    LiveRises(h, l);
    OwnMember(h.disk);
    assert line.entry in Live(h);
    var e := line.entry;
    assert Known(l, e) && e in l.added;
    if Hidden(h, line) {
      var k :| 0 <= k < |l.struck| && l.struck[k].timestamp == e.timestamp;
      assert Known(l, l.struck[k]) && l.struck[k] in l.struck;
    }
  }

  lemma ReadReturnsWhatWasAddedAt(h: History, l: Ledger)
    requires Conserved(h, l) && Undoable(h, l) && OneSessionDistinctTimes(h, l)
    ensures OwnOf(Read(h)) == Reverse(Keep(l.added, Gone(l) + (Ids(Batch(h)) + Ids(l.struck))))
  {
    hide Keep, OwnOf, Reverse, Visible, OwnLines;
    var d, b, p := OwnOf(h.disk), Batch(h), h.pending;
    var out := Ids(b) + Ids(l.struck);
    forall line | line in h.disk && line.Own? ensures Hidden(h, line) <==> line.entry.id in Ids(l.struck) {
      HiddenIsStruck(h, l, line);
    }
    VisibleKeeps(h, h.disk, l.struck);
    OwnConcat(Reverse(OwnLines(p)), Reverse(Visible(h, h.disk)));
    OwnReverse(OwnLines(p));
    OwnReverse(Visible(h, h.disk));
    OwnOfOwn(p);
    ReverseConcat(Keep(d, Ids(l.struck)), p);
    OutsideReading(h, l);
    LiveLess(h, l, out);
    assert Keep(d, Ids(l.struck)) + [] + p == Keep(d, Ids(l.struck)) + p;
  }

  lemma OutsideReading(h: History, l: Ledger)
    requires Conserved(h, l) && Undoable(h, l)
    ensures var out := Ids(Batch(h)) + Ids(l.struck);
            && Keep(OwnOf(h.disk), out) == Keep(OwnOf(h.disk), Ids(l.struck))
            && Keep(Batch(h), out) == []
            && Keep(h.pending, out) == h.pending
  {
    var d, b, p := OwnOf(h.disk), Batch(h), h.pending;
    LiveRises(h, l);
    KeepAllButMiddle(d, b, p);
    KeepKeep(d, Ids(b), Ids(l.struck));
    KeepNothing(b, Ids(b) + Ids(l.struck));
    StretchesApart(d, b, p);
    PendingUnstruck(h, l);
    KeepUntouched(p, Ids(b) + Ids(l.struck));
  }

  lemma PendingUnstruck(h: History, l: Ledger)
    requires Conserved(h, l) && Undoable(h, l)
    ensures forall e <- h.pending :: e.id !in Ids(l.struck)
  {
    LiveRises(h, l);
    forall e | e in h.pending ensures e.id !in Ids(l.struck) {
      assert e in Live(h);
    }
  }

  // ---- From the start of a process ----

  /** Conservation, in every state a process can reach from its start, with any file left by others, by any
      run of adds, flushes, failures, undos, clears, other processes' lines and session switches. */
  lemma RunConserves(session: nat, disk: seq<Line>, steps: seq<Step>)
    requires Foreigners(disk) && CanRun(Fresh(session, disk), steps)
    ensures var h, l := Run(Fresh(session, disk), steps), Audit(Fresh(session, disk), NOTHING_ADDED, steps);
            Conserved(h, l) && Undoable(h, l)
  {
    hide Conserved, Undoable;
    StartConserved(session, disk);
    RunKeepsConserved(Fresh(session, disk), NOTHING_ADDED, steps);
  }

  /** Undo. However far the newest entry has got when it is undone, and whatever
      happens afterwards short of a clear, no later read in its session returns it. */
  lemma UndoneForGood(session: nat, disk: seq<Line>, before: seq<Step>, after: seq<Step>)
    requires Foreigners(disk) && CanRun(Fresh(session, disk), before)
    requires var h := Run(Fresh(session, disk), before);
             h.last.Some? && CanRun(Next(h, Undo), after) && NoClear(after)
    ensures var h := Run(Fresh(session, disk), before);
            var later := Run(Next(h, Undo), after);
            later.session == h.last.value.session ==> Own(h.last.value) !in Read(later)
  {
    hide Conserved, Undoable;
    RunConserves(session, disk, before);
    UndoneForGoodAt(Run(Fresh(session, disk), before), Audit(Fresh(session, disk), NOTHING_ADDED, before), after);
  }

  /** After any run a line of the file is kept from a read exactly when it belongs to the session
      and carries the timestamp of some entry undone after it left the buffer. */
  lemma HiddenExactly(session: nat, disk: seq<Line>, steps: seq<Step>, line: Line)
    requires Foreigners(disk) && CanRun(Fresh(session, disk), steps)
    requires line in Run(Fresh(session, disk), steps).disk
    ensures var h := Run(Fresh(session, disk), steps);
            var struck := Audit(Fresh(session, disk), NOTHING_ADDED, steps).struck;
            line !in Read(h) <==>
            line.entry.session == h.session && exists k :: 0 <= k < |struck| && struck[k].timestamp == line.entry.timestamp
  {
    hide Conserved, Undoable;
    RunConserves(session, disk, steps);
    HiddenExactlyAt(Run(Fresh(session, disk), steps), Audit(Fresh(session, disk), NOTHING_ADDED, steps), line);
  }

  /** Round trip. After any run in one session with distinct times, a read returns of this process's own entries,
      newest first, all that were added except those undone, in flight, lost to a
      failed append or cleared. */
  lemma ReadReturnsWhatWasAdded(session: nat, disk: seq<Line>, steps: seq<Step>)
    requires Foreigners(disk) && CanRun(Fresh(session, disk), steps)
    requires OneSessionDistinctTimes(Run(Fresh(session, disk), steps), Audit(Fresh(session, disk), NOTHING_ADDED, steps))
    ensures var h, l := Run(Fresh(session, disk), steps), Audit(Fresh(session, disk), NOTHING_ADDED, steps);
            OwnOf(Read(h)) == Reverse(Keep(l.added, Gone(l) + (Ids(Batch(h)) + Ids(l.struck))))
  {
    hide Conserved, Undoable, OneSessionDistinctTimes, Read, Keep;
    RunConserves(session, disk, steps);
    ReadReturnsWhatWasAddedAt(Run(Fresh(session, disk), steps), Audit(Fresh(session, disk), NOTHING_ADDED, steps));
  }

  // ---- What is not this process's own ----

  function ForeignOf(lines: seq<Line>): seq<Entry> {
    if lines == [] then []
    else ForeignOf(lines[..|lines| - 1]) + if lines[|lines| - 1].Foreign? then [lines[|lines| - 1].entry] else []
  }

  /** The lines other processes append during a run. */
  function Externals(steps: seq<Step>): seq<Entry> {
    if steps == [] then [] else (if steps[0].External? then [steps[0].entry] else []) + Externals(steps[1..])
  }

  function LastSession(session: nat, steps: seq<Step>): nat
    decreases |steps|
  {
    if steps == [] then session else LastSession(if steps[0].Switch? then steps[0].session else session, steps[1..])
  }

  lemma {:induction false} ForeignConcat(a: seq<Line>, b: seq<Line>)
    ensures ForeignOf(a + b) == ForeignOf(a) + ForeignOf(b)
    decreases |b|
  {
    if b == [] {
      assert a + b == a;
    } else {
      assert (a + b)[..|a + b| - 1] == a + b[..|b| - 1];
      ForeignConcat(a, b[..|b| - 1]);
    }
  }

  lemma {:induction false} OwnLinesAreNotForeign(entries: seq<Entry>)
    ensures ForeignOf(OwnLines(entries)) == []
  {
    if entries != [] {
      OwnLinesAreNotForeign(entries[..|entries| - 1]);
      assert OwnLines(entries)[..|entries| - 1] == OwnLines(entries[..|entries| - 1]);
    }
  }

  lemma StepKeepsForeign(h: History, step: Step)
    requires Enabled(h, step)
    ensures ForeignOf(Next(h, step).disk) == ForeignOf(h.disk) + (if step.External? then [step.entry] else [])
  {
    match step {
      case External(e) =>
        ForeignConcat(h.disk, [Foreign(e)]);
        assert [Foreign(e)][..0] == [];
      case Append(true) =>
        ForeignConcat(h.disk, OwnLines(h.inFlight.value));
        OwnLinesAreNotForeign(h.inFlight.value);
      case _ =>
    }
  }

  /** Nothing this process does touches other processes' lines: over any run the file holds those it held
      and those appended by others, in order; and the session is the one last switched to. */
  lemma {:induction false} ForeignLinesKept(h: History, steps: seq<Step>)
    requires CanRun(h, steps)
    ensures ForeignOf(Run(h, steps).disk) == ForeignOf(h.disk) + Externals(steps)
    ensures Run(h, steps).session == LastSession(h.session, steps)
    decreases |steps|
  {
    hide ForeignOf;
    if steps != [] {
      StepKeepsForeign(h, steps[0]);
      ForeignLinesKept(Next(h, steps[0]), steps[1..]);
    }
  }

  // ---- Which entry an undo is about ----

  predicate NoAdd(steps: seq<Step>) { forall step <- steps :: !step.Add? }

  predicate NewestKept(steps: seq<Step>) { forall step <- steps :: !step.Add? && !step.Undo? && !step.Clear? }

  lemma {:induction false} NewestStays(h: History, steps: seq<Step>)
    requires CanRun(h, steps) && NewestKept(steps)
    ensures Run(h, steps).last == h.last
    decreases |steps|
  {
    if steps != [] {
      assert steps[0] in steps;
      NewestStays(Next(h, steps[0]), steps[1..]);
    }
  }

  lemma {:induction false} NothingToUndo(h: History, steps: seq<Step>)
    requires CanRun(h, steps) && NoAdd(steps) && h.last.None?
    ensures Run(h, steps).last.None?
    decreases |steps|
  {
    if steps != [] {
      assert steps[0] in steps;
      NothingToUndo(Next(h, steps[0]), steps[1..]);
    }
  }

  /** An undo is about the entry added last, wherever flushes, failures, other processes and session switches have
      left it in the meantime: that very entry is not read again in its session. */
  lemma UndoIsOfNewest(session: nat, disk: seq<Line>, before: seq<Step>, display: string, timestamp: int, mid: seq<Step>, after: seq<Step>)
    requires Foreigners(disk) && CanRun(Fresh(session, disk), before)
    requires var h := Next(Run(Fresh(session, disk), before), Add(display, timestamp));
             CanRun(h, mid) && NewestKept(mid) && CanRun(Next(Run(h, mid), Undo), after) && NoClear(after)
    ensures var h := Run(Fresh(session, disk), before);
            var e := Entry(h.next, timestamp, h.session, display);
            var held := Run(Next(h, Add(display, timestamp)), mid);
            var later := Run(Next(held, Undo), after);
            held.last == Some(e) && (later.session == e.session ==> Own(e) !in Read(later))
  {
    hide Conserved, Undoable, Read;
    var h, l := Run(Fresh(session, disk), before), Audit(Fresh(session, disk), NOTHING_ADDED, before);
    var add := Add(display, timestamp);
    RunConserves(session, disk, before);
    StepConserves(h, l, add);
    NextIsCounted(h, l);
    StepKeepsUndoable(h, l, add);
    NewestStays(Next(h, add), mid);
    RunKeepsConserved(Next(h, add), Record(l, h, add), mid);
    UndoneForGoodAt(Run(Next(h, add), mid), Audit(Next(h, add), Record(l, h, add), mid), after);
  }

  lemma NextIsCounted(h: History, l: Ledger)
    requires Conserved(h, l)
    ensures h.next == |l.added|
  {
  }

  /** Once: until the next add, a second undo does nothing, nor does an undo after a clear. */
  lemma UndoOnce(h: History, step: Step, steps: seq<Step>)
    requires step.Undo? || step.Clear?
    requires CanRun(Next(h, step), steps) && NoAdd(steps)
    ensures var later := Run(Next(h, step), steps); Next(later, Undo) == later
  {
    NothingToUndo(Next(h, step), steps);
  }

  // ---- A read, line by line ----

  lemma {:induction false} ReverseAt<T>(s: seq<T>, i: nat)
    requires i < |s|
    ensures |Reverse(s)| == |s| && Reverse(s)[i] == s[|s| - 1 - i]
  {
    if |s| > 1 {
      ReverseAt(s[..|s| - 1], if i == 0 then 0 else i - 1);
    }
  }

  lemma {:induction false} ReverseLength<T>(s: seq<T>)
    ensures |Reverse(s)| == |s|
  {
    if s != [] { ReverseLength(s[..|s| - 1]); }
  }

  predicate Increasing(ps: seq<nat>) { forall i, j :: 0 <= i < j < |ps| ==> ps[i] < ps[j] }

  /** The positions of the lines a read shows. */
  lemma {:induction false} VisibleAt(h: History, lines: seq<Line>) returns (ps: seq<nat>)
    ensures Increasing(ps) && |ps| == |Visible(h, lines)|
    ensures forall i :: 0 <= i < |ps| ==> ps[i] < |lines| && Visible(h, lines)[i] == lines[ps[i]]
    ensures forall k: nat :: k in ps <==> k < |lines| && !Hidden(h, lines[k])
  {
    if lines == [] {
      ps := [];
    } else {
      var last := |lines| - 1;
      ps := VisibleAt(h, lines[..last]);
      if !Hidden(h, lines[last]) {
        ps := ps + [last];
      }
    }
  }

  /** What a read returns, line by line: the buffer from its end, then from the end of the file every
      line except those of this session with a skipped timestamp. */
  lemma ReadIs(h: History) returns (ps: seq<nat>)
    ensures Increasing(ps)
    ensures forall k: nat :: k in ps <==>
              k < |h.disk| && !(h.disk[k].entry.session == h.session && h.disk[k].entry.timestamp in h.skipped)
    ensures |Read(h)| == |h.pending| + |ps|
    ensures forall i :: 0 <= i < |h.pending| ==> Read(h)[i] == Own(h.pending[|h.pending| - 1 - i])
    ensures forall j :: 0 <= j < |ps| ==> ps[j] < |h.disk| && Read(h)[|Read(h)| - 1 - j] == h.disk[ps[j]]
  {
    ps := VisibleAt(h, h.disk);
    var mine, shown := OwnLines(h.pending), Visible(h, h.disk);
    hide Visible;
    Reversed(mine);
    Reversed(shown);
    hide Reverse;
    forall j | 0 <= j < |ps| ensures ps[j] < |h.disk| && Read(h)[|Read(h)| - 1 - j] == h.disk[ps[j]] {
      assert Read(h)[|Read(h)| - 1 - j] == Reverse(shown)[|shown| - 1 - j];
    }
  }

  lemma Reversed<T>(s: seq<T>)
    ensures |Reverse(s)| == |s|
    ensures forall i :: 0 <= i < |s| ==> Reverse(s)[i] == s[|s| - 1 - i]
  {
    ReverseLength(s);
    forall i | 0 <= i < |s| ensures Reverse(s)[i] == s[|s| - 1 - i] { ReverseAt(s, i); }
  }
}
