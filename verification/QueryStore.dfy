/** The loop and its consumer together: are the tool uses in the store that the engine
    hands to its next query answered? */
module QueryStore {
  import opened Prelude
  import L = QueryLoop
  import P = QueryPairing
  import E = QueryEngine

  // ---- The engine's events are the loop's yields ----

  predicate RendersMessage(m: L.Message, e: E.Message) {
    match m
    case Assistant(_, uses, error) => e.Assistant? && e.toolUses == uses && e.isApiError == error.Some?
    case User(_, results) => e.User? && e.toolResults == results
    case Attachment(_, _) => e.Attachment?
    case System(_, boundary) => e.System? && (E.Truncates(e) <==> boundary)
  }

  predicate RendersEvent(y: L.Yield, e: E.Event) {
    match y
    case RequestStart => e.RequestStart?
    case StreamEvent(_) => e.StreamEvent?
    case Out(m) => e.Sent? && RendersMessage(m, e.message)
    case Tombstone(_) => e.Tombstone?
  }

  predicate Renders(ys: seq<L.Yield>, arrivals: seq<E.Arrival>) {
    |ys| == |arrivals| && forall i :: 0 <= i < |ys| ==> RendersEvent(ys[i], arrivals[i].event)
  }

  // ---- What is unanswered in a store ----

  function Unanswered(messages: seq<E.Message>, id: L.ToolId): int {
    if messages == [] then 0 else Unanswered(messages[..|messages| - 1], id) + Asks(messages[|messages| - 1], id)
  }

  function Asks(m: E.Message, id: L.ToolId): int {
    if m.Assistant? then P.Occurrences(m.toolUses, id) else if m.User? then -P.Occurrences(m.toolResults, id) else 0
  }

  predicate IsBoundary(y: L.Yield) { y.Out? && P.IsBoundary(y.message) }

  /** Shown since the last boundary and neither answered nor withdrawn; `b` before the first event. */
  function OpenSince(b: int, ys: seq<L.Yield>, id: L.ToolId): int {
    if ys == [] then b
    else if IsBoundary(ys[|ys| - 1]) then 0
    else OpenSince(b, ys[..|ys| - 1], id) + P.Balance(ys[|ys| - 1], id)
  }

  /** Withdrawn by a tombstone since the last boundary. */
  function WithdrawnSince(ys: seq<L.Yield>, id: L.ToolId): int {
    if ys == [] then 0
    else if IsBoundary(ys[|ys| - 1]) then 0
    else WithdrawnSince(ys[..|ys| - 1], id) + if ys[|ys| - 1].Tombstone? then P.Uses(ys[|ys| - 1].message, id) else 0
  }

  lemma UnansweredOne(messages: seq<E.Message>, m: E.Message, id: L.ToolId)
    ensures Unanswered(messages + [m], id) == Unanswered(messages, id) + Asks(m, id)
    ensures Unanswered([m], id) == Asks(m, id)
  {
    assert (messages + [m])[..|messages|] == messages;
    assert [m][..0] == [];
  }

  /** One event's effect on the conversation store. */
  lemma HandledStore(o: E.Options, t: E.Turn, e: E.Event, toAck: seq<nat>)
    ensures E.Handle(o, t, e, toAck).mutableMessages ==
            if !e.Sent? then t.mutableMessages
            else if E.Truncates(e.message) then [e.message]
            else t.mutableMessages + [e.message]
  {
    if e.Sent? {
      E.RecordStores(t, e.message, toAck);
      if E.Truncates(e.message) {
        E.BoundaryTruncates(o, t, e.message, toAck);
      } else {
        E.DispatchStores(o, E.Record(t, e.message, toAck), e.message);
      }
    }
  }

  lemma HandledUnanswered(o: E.Options, t: E.Turn, y: L.Yield, e: E.Event, toAck: seq<nat>, id: L.ToolId)
    requires RendersEvent(y, e)
    ensures Unanswered(E.Handle(o, t, e, toAck).mutableMessages, id) ==
            if IsBoundary(y) then 0
            else Unanswered(t.mutableMessages, id) + P.Balance(y, id) + if y.Tombstone? then P.Uses(y.message, id) else 0
  {
    hide E.Handle;
    HandledStore(o, t, e, toAck);
    if e.Sent? {
      UnansweredOne(t.mutableMessages, e.message, id);
    }
  }

  /** The engine's store, after any events at all: unanswered in it are the uses still open since the last
      boundary and, because the engine ignores tombstones, those withdrawn since. */
  lemma {:induction false} StoreIsOpenPlusWithdrawn(o: E.Options, start: seq<E.Message>, ys: seq<L.Yield>,
                                                    arrivals: seq<E.Arrival>, toAck: seq<nat>, id: L.ToolId)
    requires Renders(ys, arrivals)
    ensures Unanswered(E.After(o, E.Begin(start), arrivals, toAck).mutableMessages, id)
            == OpenSince(Unanswered(start, id), ys, id) + WithdrawnSince(ys, id)
    decreases |ys|
  {
    hide E.Handle;
    if ys != [] {
      var last := |ys| - 1;
      StoreIsOpenPlusWithdrawn(o, start, ys[..last], arrivals[..last], toAck, id);
      HandledUnanswered(o, E.After(o, E.Begin(start), arrivals[..last], toAck), ys[last], arrivals[last].event, toAck, id);
    }
  }

  // ---- Over the loop's runs nothing stays open ----

  predicate NoBoundaries(ys: seq<L.Yield>) { forall i :: 0 <= i < |ys| ==> !IsBoundary(ys[i]) }

  lemma {:induction false} OpenSinceConcat(b: int, a: seq<L.Yield>, c: seq<L.Yield>, id: L.ToolId)
    ensures OpenSince(b, a + c, id) == OpenSince(OpenSince(b, a, id), c, id)
    decreases |c|
  {
    if c == [] {
      assert a + c == a;
    } else {
      assert (a + c)[..|a + c| - 1] == a + c[..|c| - 1];
      OpenSinceConcat(b, a, c[..|c| - 1], id);
    }
  }

  lemma {:induction false} OpenSinceNone(b: int, ys: seq<L.Yield>, id: L.ToolId)
    requires NoBoundaries(ys)
    ensures OpenSince(b, ys, id) == b + P.Open(ys, id)
  {
    if ys != [] {
      OpenSinceNone(b, ys[..|ys| - 1], id);
    }
  }

  /** A compaction's messages, shown from their boundary on, leave nothing open. */
  lemma CompactionClosed(b: int, messages: seq<L.Message>, id: L.ToolId)
    requires messages != [] && P.IsBoundary(messages[0]) && P.Clean(messages) && P.Paired(messages, id)
    ensures OpenSince(b, L.Outs(messages), id) == 0
  {
    hide P.Paired;
    var first, rest := L.Outs(messages)[..1], L.Outs(messages)[1..];
    assert L.Outs(messages) == first + rest && NoBoundaries(rest);
    OpenSinceConcat(b, first, rest, id);
    OpenSinceNone(0, rest, id);
    P.OpenConcat(first, rest, id);
    P.OpenOne(L.Out(messages[0]), id);
    assert first == [L.Out(messages[0])];
    P.OpenOuts(messages, id);
    BalancedIfPaired(messages, id);
  }

  lemma BalancedIfPaired(messages: seq<L.Message>, id: L.ToolId)
    requires P.Paired(messages, id)
    ensures P.UsesIn(messages, id) == P.ResultsIn(messages, id)
  {
  }

  /** Boundaries come from compaction only. */
  predicate StreamsNoBoundary(items: seq<L.StreamItem>) {
    forall i :: 0 <= i < |items| ==> items[i].Streamed? ==> !P.IsBoundary(items[i].message)
  }

  predicate NoStrayBoundary(w: L.World) {
    StreamsNoBoundary(w.items) && forall i :: 0 <= i < |w.fallbacks| ==> StreamsNoBoundary(w.fallbacks[i])
  }

  lemma {:induction false} ConsumeShowsNoBoundary(cfg: L.Config, w: L.World, s: L.Stream, items: seq<L.StreamItem>)
    requires NoBoundaries(s.shown) && StreamsNoBoundary(items)
    ensures NoBoundaries(L.ConsumeAll(cfg, w, s, items).shown)
    decreases |items|
  {
    hide L.Withheld;
    if items != [] {
      ConsumeShowsNoBoundary(cfg, w, s, items[..|items| - 1]);
    }
  }

  lemma {:induction false} MissingShowsNoBoundary(assistants: seq<L.Message>, why: L.Body)
    ensures NoBoundaries(L.MissingResults(assistants, why))
  {
    if assistants != [] {
      MissingShowsNoBoundary(assistants[..|assistants| - 1], why);
    }
  }

  lemma {:induction false} FallbacksShowNoBoundary(cfg: L.Config, w: L.World, k: nat, ys: seq<L.Yield>)
    requires k <= |w.fallbacks| && NoBoundaries(ys) && NoStrayBoundary(w)
    ensures NoBoundaries(L.AfterFallbacks(cfg, w, k, ys))
  {
    hide L.ConsumeAll;
    if k > 0 {
      FallbacksShowNoBoundary(cfg, w, k - 1, ys);
      var s := L.Fresh(L.AfterFallbacks(cfg, w, k - 1, ys));
      ConsumeShowsNoBoundary(cfg, w, s, w.fallbacks[k - 1]);
      MissingShowsNoBoundary(L.ConsumeAll(cfg, w, s, w.fallbacks[k - 1]).assistants, L.MODEL_FALLBACK);
    }
  }

  /** The response adds to the opening, and no boundary. */
  lemma ResponseAfterOpening(cfg: L.Config, w: L.World) returns (more: seq<L.Yield>)
    requires NoStrayBoundary(w)
    ensures L.Response(cfg, w, L.Opening(w)).shown == L.Opening(w) + more && NoBoundaries(more)
  {
    L.ResponsePrefix(cfg, w, L.Opening(w), []);
    assert L.Opening(w) + [] == L.Opening(w);
    more := L.Response(cfg, w, []).shown;
    FallbacksShowNoBoundary(cfg, w, |w.fallbacks|, []);
    ConsumeShowsNoBoundary(cfg, w, L.Fresh(L.AfterFallbacks(cfg, w, |w.fallbacks|, [])), w.items);
  }

  lemma OpeningSince(cfg: L.Config, w: L.World, b: int, id: L.ToolId)
    requires P.Honest(cfg, w, id)
    ensures OpenSince(b, L.Opening(w), id) == if w.compaction.Some? then 0 else b
  {
    hide P.Paired, P.GoodTools;
    var start: seq<L.Yield> := [L.RequestStart];
    assert NoBoundaries(start);
    OpenSinceNone(b, start, id);
    P.OpenOne(L.RequestStart, id);
    if w.compaction.Some? {
      OpenSinceConcat(b, start, L.Outs(w.compaction.value.messages), id);
      CompactionClosed(b, w.compaction.value.messages, id);
    } else {
      assert start + [] == start;
    }
  }

  /** Boundaries after the stream: only a reactive compaction's. */
  lemma AfterStreamBoundaries(cfg: L.Config, st: L.State, w: L.World, request: seq<L.Message>, s: L.Stream, left: Option<nat>, id: L.ToolId)
    requires P.Honest(cfg, w, id)
    ensures var o := L.AfterStream(cfg, st, w, request, s, left);
            NoBoundaries(o.shown) || (w.reactive.Some? && o.shown == L.Outs(w.reactive.value.messages))
  {
    hide P.Paired, P.GoodTools, P.GoodCompaction;
    MissingShowsNoBoundary(s.assistants, L.MODEL_FAILED);
    MissingShowsNoBoundary(s.assistants, L.INTERRUPTED);
    PlainShowsNoBoundary(w.hookMessages);
    PlainShowsNoBoundary(w.attachments);
    ToolsShowNoBoundary(cfg, w, id);
    if w.end.Finished? && !w.aborted && !s.needsFollowUp {
      ConcludeBoundaries(cfg, st, w, request, s, left);
    }
  }

  lemma PlainShowsNoBoundary(messages: seq<L.Message>)
    requires P.Plain(messages)
    ensures NoBoundaries(L.Outs(messages))
  {
    assert forall i :: 0 <= i < |messages| ==> messages[i] in messages;
  }

  lemma ToolsShowNoBoundary(cfg: L.Config, w: L.World, id: L.ToolId)
    requires P.GoodTools(cfg, w, id)
    ensures NoBoundaries(L.Outs(w.toolMessages))
  {
    assert forall i :: 0 <= i < |w.toolMessages| ==> w.toolMessages[i] in w.toolMessages;
  }

  lemma ConcludeBoundaries(cfg: L.Config, st: L.State, w: L.World, request: seq<L.Message>, s: L.Stream, left: Option<nat>)
    requires NoBoundaries(L.Outs(w.hookMessages))
    ensures var o := L.Conclude(cfg, st, w, request, s, left);
            || NoBoundaries(o.shown) || (w.reactive.Some? && o.shown == L.Outs(w.reactive.value.messages))
  {
    var last := L.LastError(s.assistants);
    if s.assistants != [] && last.Some? {
      assert NoBoundaries([L.Out(s.assistants[|s.assistants| - 1])]);
    }
  }

  /** An iteration that throws no image error leaves nothing open since the last boundary. */
  lemma IterationClosed(cfg: L.Config, st: L.State, w: L.World, id: L.ToolId)
    requires P.Honest(cfg, w, id) && NoStrayBoundary(w) && w.end != L.Threw(true)
    ensures OpenSince(0, L.Iterate(cfg, st, w).shown, id) == 0
  {
    hide P.Honest, L.Response, L.AfterStream, L.Request, L.BudgetAfterCompaction, L.Opening;
    var all := L.Iterate(cfg, st, w).shown;
    P.IterationSettles(cfg, st, w, id);
    OpeningSince(cfg, w, 0, id);
    P.OpeningOpen(cfg, w, id);
    if w.compaction.None? && w.blocked {
      BlockedShowsNoBoundary(w);
      OpenSinceNone(0, all, id);
    } else {
      var s := L.Response(cfg, w, L.Opening(w));
      var left := L.BudgetAfterCompaction(cfg, st, w);
      var o := L.AfterStream(cfg, st, w, L.Request(st, w), s, left);
      var more := ResponseAfterOpening(cfg, w);
      assert all == L.Opening(w) + more + o.shown;
      OpenSinceConcat(0, L.Opening(w), more, id);
      OpenSinceNone(0, more, id);
      OpenSinceConcat(0, L.Opening(w) + more, o.shown, id);
      P.OpenConcat(L.Opening(w), more, id);
      P.OpenConcat(L.Opening(w) + more, o.shown, id);
      AfterStreamBoundaries(cfg, st, w, L.Request(st, w), s, left, id);
      if NoBoundaries(o.shown) {
        OpenSinceNone(P.Open(more, id), o.shown, id);
      } else {
        ReactiveGood(cfg, w, id);
        CompactionClosed(P.Open(more, id), w.reactive.value.messages, id);
      }
    }
  }

  lemma BlockedShowsNoBoundary(w: L.World)
    requires w.compaction.None?
    ensures NoBoundaries(L.Opening(w) + [L.ApiError(L.TOO_LONG, L.PromptTooLong)])
  {
  }

  lemma ReactiveGood(cfg: L.Config, w: L.World, id: L.ToolId)
    requires P.Honest(cfg, w, id) && w.reactive.Some?
    ensures var messages := w.reactive.value.messages;
            messages != [] && P.IsBoundary(messages[0]) && P.Clean(messages) && P.Paired(messages, id)
  {
    hide P.Paired, P.GoodTools;
  }

  lemma {:induction false} RunClosed(cfg: L.Config, st: L.State, worlds: seq<L.World>, id: L.ToolId)
    requires P.AllHonest(cfg, worlds, id) && forall w <- worlds :: NoStrayBoundary(w) && w.end != L.Threw(true)
    ensures OpenSince(0, L.Loop(cfg, st, worlds).shown, id) == 0
    decreases |worlds|
  {
    hide L.Iterate, P.Honest, NoStrayBoundary;
    if worlds != [] {
      var w := worlds[0];
      assert w in worlds;
      IterationClosed(cfg, st, w, id);
      var o := L.Iterate(cfg, st, w);
      if o.Continue? {
        RunClosed(cfg, o.state, worlds[1..], id);
        OpenSinceConcat(0, o.shown, L.Loop(cfg, o.state, worlds[1..]).shown, id);
      }
    }
  }

  /** The composition. An engine whose store was paired consumes a run of the loop. What is then unanswered in
      the store it hands to the next query is what a tombstone withdrew since the
      last boundary, so the store is paired on an id if and only if no use of that
      id was withdrawn, by a fallback in the middle of a stream. */
  lemma StorePairedIffNothingWithdrawn(cfg: L.Config, st: L.State, worlds: seq<L.World>, o: E.Options, start: seq<E.Message>,
                                       arrivals: seq<E.Arrival>, toAck: seq<nat>, id: L.ToolId)
    requires P.AllHonest(cfg, worlds, id) && forall w <- worlds :: NoStrayBoundary(w) && w.end != L.Threw(true)
    requires Unanswered(start, id) == 0 && Renders(L.Loop(cfg, st, worlds).shown, arrivals)
    ensures var store := E.After(o, E.Begin(start), arrivals, toAck).mutableMessages;
            var withdrawn := WithdrawnSince(L.Loop(cfg, st, worlds).shown, id);
            && Unanswered(store, id) == withdrawn >= 0
            && (Unanswered(store, id) == 0 <==> withdrawn == 0)
  {
    RunClosed(cfg, st, worlds, id);
    StoreIsOpenPlusWithdrawn(o, start, L.Loop(cfg, st, worlds).shown, arrivals, toAck, id);
    WithdrawnCounts(L.Loop(cfg, st, worlds).shown, id);
  }

  lemma {:induction false} WithdrawnCounts(ys: seq<L.Yield>, id: L.ToolId)
    ensures WithdrawnSince(ys, id) >= 0
  {
    if ys != [] {
      WithdrawnCounts(ys[..|ys| - 1], id);
    }
  }

  /** A run the engine leaves early, at a budget or limit after `n` events, adds the uses then open. */
  lemma StoreAfterEarlyExit(o: E.Options, start: seq<E.Message>, ys: seq<L.Yield>, arrivals: seq<E.Arrival>, n: nat,
                            toAck: seq<nat>, initialCalls: nat, id: L.ToolId)
    requires Renders(ys, arrivals) && Unanswered(start, id) == 0
    requires n == E.Handled(o, E.Begin(start), arrivals, toAck, initialCalls)
    ensures Unanswered(E.Consume(o, E.Begin(start), arrivals, toAck, initialCalls).mutableMessages, id)
            == OpenSince(0, ys[..n], id) + WithdrawnSince(ys[..n], id)
  {
    hide E.Handled, E.Consume, E.After, E.Ending;
    E.ConsumeIsAfterPlusResult(o, E.Begin(start), arrivals, toAck, initialCalls);
    StoreIsOpenPlusWithdrawn(o, start, ys[..n], arrivals[..n], toAck, id);
  }
}
