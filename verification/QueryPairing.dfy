/** Tool uses and tool results stay paired: in every request sent to the model,
    and in everything a consumer of the loop gets to see. */
module QueryPairing {
  import opened Prelude
  import opened QueryLoop

  // ---- Pairing of a transcript, one tool id at a time ----

  function Occurrences(ids: seq<ToolId>, id: ToolId): (n: int)
    ensures n >= 0
  {
    if ids == [] then 0
    else Occurrences(ids[..|ids| - 1], id) + if ids[|ids| - 1] == id then 1 else 0
  }

  lemma {:induction false} OccurrencesConcat(a: seq<ToolId>, b: seq<ToolId>, id: ToolId)
    ensures Occurrences(a + b, id) == Occurrences(a, id) + Occurrences(b, id)
    decreases |b|
  {
    if b == [] {
      assert a + b == a;
    } else {
      assert (a + b)[..|a + b| - 1] == a + b[..|b| - 1];
      OccurrencesConcat(a, b[..|b| - 1], id);
    }
  }

  function Uses(m: Message, id: ToolId): int { if m.Assistant? then Occurrences(m.toolUses, id) else 0 }

  function Results(m: Message, id: ToolId): int { if m.User? then Occurrences(m.toolResults, id) else 0 }

  function UsesIn(messages: seq<Message>, id: ToolId): (n: int)
    ensures n >= 0
  {
    if messages == [] then 0 else UsesIn(messages[..|messages| - 1], id) + Uses(messages[|messages| - 1], id)
  }

  function ResultsIn(messages: seq<Message>, id: ToolId): (n: int)
    ensures n >= 0
  {
    if messages == [] then 0 else ResultsIn(messages[..|messages| - 1], id) + Results(messages[|messages| - 1], id)
  }

  /** A response of the model begins here. */
  predicate Begins(messages: seq<Message>, k: int) {
    0 < k < |messages| && messages[k].Assistant? && !messages[k - 1].Assistant?
  }

  /** The id has as many results as uses, no result comes before its use, and every use
      is answered before the model's next response begins. */
  ghost predicate Paired(messages: seq<Message>, id: ToolId) {
    && UsesIn(messages, id) == ResultsIn(messages, id)
    && (forall k :: 0 <= k <= |messages| ==> ResultsIn(messages[..k], id) <= UsesIn(messages[..k], id))
    && (forall k :: Begins(messages, k) ==> ResultsIn(messages[..k], id) == UsesIn(messages[..k], id))
  }

  predicate AllAssistants(messages: seq<Message>) { forall i :: 0 <= i < |messages| ==> messages[i].Assistant? }

  lemma {:induction false} InConcat(a: seq<Message>, b: seq<Message>, id: ToolId)
    ensures UsesIn(a + b, id) == UsesIn(a, id) + UsesIn(b, id) && ResultsIn(a + b, id) == ResultsIn(a, id) + ResultsIn(b, id)
    decreases |b|
  {
    if b == [] {
      assert a + b == a;
    } else {
      assert (a + b)[..|a + b| - 1] == a + b[..|b| - 1];
      InConcat(a, b[..|b| - 1], id);
    }
  }

  lemma InOne(m: Message, id: ToolId)
    ensures UsesIn([m], id) == Uses(m, id) && ResultsIn([m], id) == Results(m, id)
  {
    assert [m][..0] == [];
  }

  lemma {:induction false} InMonotone(messages: seq<Message>, k: nat, id: ToolId)
    requires k <= |messages|
    ensures UsesIn(messages[..k], id) <= UsesIn(messages, id) && ResultsIn(messages[..k], id) <= ResultsIn(messages, id)
  {
    assert messages == messages[..k] + messages[k..];
    InConcat(messages[..k], messages[k..], id);
  }

  lemma NeverAhead(request: seq<Message>, uses: seq<Message>, results: seq<Message>, id: ToolId)
    requires Paired(request, id)
    requires ResultsIn(uses, id) == 0 && UsesIn(results, id) == 0 && ResultsIn(results, id) == UsesIn(uses, id)
    ensures var all := request + uses + results;
            forall k :: 0 <= k <= |all| ==> ResultsIn(all[..k], id) <= UsesIn(all[..k], id)
  {
    var all := request + uses + results;
    forall k | 0 <= k <= |all| ensures ResultsIn(all[..k], id) <= UsesIn(all[..k], id) {
      if k <= |request| {
        assert all[..k] == request[..k];
      } else if k <= |request + uses| {
        var j := k - |request|;
        assert all[..k] == request + uses[..j];
        InConcat(request, uses[..j], id);
        InMonotone(uses, j, id);
      } else {
        var j := k - |request + uses|;
        assert all[..k] == request + uses + results[..j];
        InConcat(request, uses, id);
        InConcat(request + uses, results[..j], id);
        InMonotone(results, j, id);
      }
    }
  }

  lemma AnsweredInTime(request: seq<Message>, uses: seq<Message>, results: seq<Message>, id: ToolId)
    requires Paired(request, id) && AllAssistants(uses) && NoAssistants(results)
    ensures var all := request + uses + results;
            forall k :: Begins(all, k) ==> ResultsIn(all[..k], id) == UsesIn(all[..k], id)
  {
    var all := request + uses + results;
    forall k | Begins(all, k) ensures ResultsIn(all[..k], id) == UsesIn(all[..k], id) {
      if k < |request| {
        assert Begins(request, k) && all[..k] == request[..k];
      } else if k == |request| {
        assert all[..k] == request;
      }
    }
  }

  /** A paired transcript followed by uses and then exactly their results is paired. */
  lemma PairedAppend(request: seq<Message>, uses: seq<Message>, results: seq<Message>, id: ToolId)
    requires Paired(request, id) && AllAssistants(uses) && NoAssistants(results)
    requires ResultsIn(uses, id) == 0 && UsesIn(results, id) == 0 && ResultsIn(results, id) == UsesIn(uses, id)
    ensures Paired(request + uses + results, id)
  {
    InConcat(request, uses, id);
    InConcat(request + uses, results, id);
    NeverAhead(request, uses, results, id);
    AnsweredInTime(request, uses, results, id);
  }

  // ---- Compact boundaries ----

  predicate IsBoundary(m: Message) { m.System? && m.boundary }

  predicate NoBoundary(messages: seq<Message>) { forall m :: m in messages ==> !IsBoundary(m) }

  /** A boundary, if any, comes first. */
  predicate Clean(messages: seq<Message>) { forall i :: 0 < i < |messages| ==> !IsBoundary(messages[i]) }

  lemma {:induction false} LastBoundary(messages: seq<Message>)
    ensures var i := LastBoundaryIndex(messages);
            (i >= 0 ==> IsBoundary(messages[i])) && forall j :: i < j < |messages| ==> !IsBoundary(messages[j])
  {
    if messages != [] {
      LastBoundary(messages[..|messages| - 1]);
    }
  }

  lemma AfterBoundaryClean(messages: seq<Message>)
    ensures Clean(AfterBoundary(messages))
    ensures Clean(messages) ==> AfterBoundary(messages) == messages
  {
    LastBoundary(messages);
  }

  // ---- What the outside owes the loop ----

  /** Compaction starts its messages with the boundary marker and preserves pairing. */
  ghost predicate GoodCompaction(c: Compaction, id: ToolId) {
    c.messages != [] && IsBoundary(c.messages[0]) && Clean(c.messages) && Paired(c.messages, id)
  }

  /** Messages that neither use tools, answer tools nor mark a boundary. */
  predicate Plain(messages: seq<Message>) {
    forall m :: m in messages ==> !m.Assistant? && !IsBoundary(m) && (m.User? ==> m.toolResults == [])
  }

  /** The model streams assistant and system messages; its error messages use no tools. */
  ghost predicate GoodItem(item: StreamItem) {
    item.Streamed? ==> var m := item.message;
      (m.Assistant? || m.System?) && (m.Assistant? && m.error.Some? ==> m.toolUses == [])
  }

  ghost predicate GoodItems(items: seq<StreamItem>) {
    forall item :: item in items ==> GoodItem(item)
  }

  /** Running the tools yields one result for every block. */
  ghost predicate GoodTools(cfg: Config, w: World, id: ToolId) {
    var s := Response(cfg, w, Opening(w));
    && (forall m :: m in w.toolMessages ==> !m.Assistant? && !IsBoundary(m))
    && (s.needsFollowUp ==> ResultsIn(w.toolMessages, id) == Occurrences(s.toolBlocks, id))
  }

  ghost predicate Honest(cfg: Config, w: World, id: ToolId) {
    && (w.compaction.Some? ==> GoodCompaction(w.compaction.value, id))
    && (w.reactive.Some? ==> GoodCompaction(w.reactive.value, id))
    && Plain(w.hookMessages) && Plain(w.hookErrors) && Plain(w.attachments)
    && GoodItems(w.items) && (forall items :: items in w.fallbacks ==> GoodItems(items))
    && GoodTools(cfg, w, id)
  }

  // ---- The request ----

  lemma {:induction false} RewriteKeepsTools(messages: seq<Message>, edits: map<nat, Body>, k: nat, id: ToolId)
    requires k <= |messages|
    ensures UsesIn(Rewrite(messages, edits)[..k], id) == UsesIn(messages[..k], id)
    ensures ResultsIn(Rewrite(messages, edits)[..k], id) == ResultsIn(messages[..k], id)
    decreases k
  {
    if k > 0 {
      RewriteKeepsTools(messages, edits, k - 1, id);
      assert messages[..k][..k - 1] == messages[..k - 1];
      assert Rewrite(messages, edits)[..k][..k - 1] == Rewrite(messages, edits)[..k - 1];
    }
  }

  lemma RewriteKeepsPaired(messages: seq<Message>, edits: map<nat, Body>, id: ToolId)
    requires Paired(messages, id)
    ensures Paired(Rewrite(messages, edits), id)
  {
    var r := Rewrite(messages, edits);
    RewriteKeepsTools(messages, edits, |messages|, id);
    assert r[..|messages|] == r && messages[..|messages|] == messages;
    forall k | 0 <= k <= |r|
      ensures ResultsIn(r[..k], id) == ResultsIn(messages[..k], id) && UsesIn(r[..k], id) == UsesIn(messages[..k], id)
    {
      RewriteKeepsTools(messages, edits, k, id);
    }
    assert forall k :: Begins(r, k) ==> Begins(messages, k);
  }

  lemma RewriteKeepsClean(messages: seq<Message>, edits: map<nat, Body>)
    requires Clean(messages)
    ensures Clean(Rewrite(messages, edits))
  {
  }

  ghost predicate Ready(st: State, id: ToolId) { Paired(AfterBoundary(st.messages), id) }

  lemma RequestPaired(cfg: Config, st: State, w: World, id: ToolId)
    requires Ready(st, id) && Honest(cfg, w, id)
    ensures Paired(Request(st, w), id) && Clean(Request(st, w))
  {
    AfterBoundaryClean(st.messages);
    RewriteKeepsPaired(AfterBoundary(st.messages), w.edits, id);
    RewriteKeepsClean(AfterBoundary(st.messages), w.edits);
  }

  // ---- The response ----

  ghost predicate Tallied(s: Stream, id: ToolId) {
    && (forall m :: m in s.assistants ==> m.Assistant?)
    && UsesIn(s.assistants, id) == Occurrences(s.toolBlocks, id) && ResultsIn(s.assistants, id) == 0
    && (s.needsFollowUp <==> s.toolBlocks != [])
  }

  lemma ConsumeOneTallied(cfg: Config, w: World, s: Stream, item: StreamItem, id: ToolId)
    requires Tallied(s, id)
    ensures Tallied(Consume(cfg, w, s, item), id)
  {
    var d := DropOrphans(s);
    if item.Streamed? && item.message.Assistant? {
      var m := item.message;
      InConcat(d.assistants, [m], id);
      InOne(m, id);
      OccurrencesConcat(d.toolBlocks, m.toolUses, id);
    }
  }

  lemma {:induction false} ConsumeTallied(cfg: Config, w: World, s: Stream, items: seq<StreamItem>, id: ToolId)
    requires Tallied(s, id)
    ensures Tallied(ConsumeAll(cfg, w, s, items), id)
    decreases |items|
  {
    if items != [] {
      ConsumeTallied(cfg, w, s, items[..|items| - 1], id);
      ConsumeOneTallied(cfg, w, ConsumeAll(cfg, w, s, items[..|items| - 1]), items[|items| - 1], id);
    }
  }

  lemma ResponseTallied(cfg: Config, w: World, ys: seq<Yield>, id: ToolId)
    ensures Tallied(Response(cfg, w, ys), id)
  {
    ConsumeTallied(cfg, w, Fresh(AfterFallbacks(cfg, w, |w.fallbacks|, ys)), w.items, id);
  }

  lemma {:induction false} PlainHasNoTools(messages: seq<Message>, id: ToolId)
    requires Plain(messages)
    ensures UsesIn(messages, id) == 0 && ResultsIn(messages, id) == 0
  {
    if messages != [] {
      PlainHasNoTools(messages[..|messages| - 1], id);
      assert messages[|messages| - 1] in messages;
    }
  }

  lemma {:induction false} NormalizedAreUsers(messages: seq<Message>)
    ensures forall i :: 0 <= i < |Normalized(messages)| ==> Normalized(messages)[i].User?
    ensures NoBoundary(Normalized(messages)) && NoAssistants(Normalized(messages))
  {
    if messages != [] {
      NormalizedAreUsers(messages[..|messages| - 1]);
    }
  }

  lemma {:induction false} NormalizedKeepsResults(messages: seq<Message>, id: ToolId)
    requires forall i :: 0 <= i < |messages| ==> !messages[i].Assistant?
    ensures UsesIn(Normalized(messages), id) == 0 && ResultsIn(Normalized(messages), id) == ResultsIn(messages, id)
  {
    if messages != [] {
      var init := messages[..|messages| - 1];
      var m := messages[|messages| - 1];
      NormalizedKeepsResults(init, id);
      if m.User? {
        InConcat(Normalized(init), [m], id);
        InOne(m, id);
      } else if m.Attachment? {
        InConcat(Normalized(init), [User(m.body, [])], id);
        InOne(User(m.body, []), id);
      } else {
        assert Normalized(init) + [] == Normalized(init);
      }
    }
  }

  // ---- Transcript pairing ----

  lemma CleanAppend(request: seq<Message>, more: seq<Message>)
    requires Clean(request) && NoBoundary(more)
    ensures Clean(request + more)
  {
    forall i | 0 < i < |request + more| ensures !IsBoundary((request + more)[i]) {
      if i >= |request| { assert (request + more)[i] in more; }
    }
  }

  /** Appending an answered response to a clean request gives a ready state. */
  lemma ReadyAfter(request: seq<Message>, uses: seq<Message>, results: seq<Message>, id: ToolId)
    requires Paired(request, id) && Clean(request)
    requires ResultsIn(uses, id) == 0 && UsesIn(results, id) == 0 && ResultsIn(results, id) == UsesIn(uses, id)
    requires AllAssistants(uses) && NoAssistants(results) && NoBoundary(uses) && NoBoundary(results)
    ensures Paired(AfterBoundary(request + uses + results), id)
  {
    PairedAppend(request, uses, results, id);
    CleanAppend(request, uses);
    CleanAppend(request + uses, results);
    AfterBoundaryClean(request + uses + results);
  }

  lemma PlainReadyAfter(request: seq<Message>, s: Stream, more: seq<Message>, id: ToolId)
    requires Paired(request, id) && Clean(request) && Tallied(s, id) && !s.needsFollowUp && Plain(more)
    ensures Paired(AfterBoundary(request + s.assistants + more), id)
  {
    PlainHasNoTools(more, id);
    ReadyAfter(request, s.assistants, more, id);
  }

  lemma ConcludeKeepsReady(cfg: Config, st: State, w: World, s: Stream, left: Option<nat>, id: ToolId)
    requires Ready(st, id) && Honest(cfg, w, id) && Tallied(s, id) && !s.needsFollowUp
    ensures var o := Conclude(cfg, st, w, Request(st, w), s, left); o.Continue? ==> Ready(o.state, id)
  {
    hide Request, AfterBoundary, Paired;
    var request := Request(st, w);
    RequestPaired(cfg, st, w, id);
    AfterBoundaryClean(request);
    PlainReadyAfter(request, s, [User(RESUME, [])], id);
    PlainReadyAfter(request, s, [User(NUDGE, [])], id);
    PlainReadyAfter(request, s, w.hookErrors, id);
    if w.reactive.Some? { AfterBoundaryClean(w.reactive.value.messages); }
  }

  lemma ToolResultsAnswer(cfg: Config, w: World, id: ToolId)
    requires Honest(cfg, w, id) && Response(cfg, w, Opening(w)).needsFollowUp
    ensures var results := Normalized(w.toolMessages) + w.attachments;
            && UsesIn(results, id) == 0 && NoBoundary(results) && NoAssistants(results)
            && ResultsIn(results, id) == UsesIn(Response(cfg, w, Opening(w)).assistants, id)
  {
    ResponseTallied(cfg, w, Opening(w), id);
    NormalizedAreUsers(w.toolMessages);
    NormalizedKeepsResults(w.toolMessages, id);
    PlainHasNoTools(w.attachments, id);
    InConcat(Normalized(w.toolMessages), w.attachments, id);
  }

  lemma UseToolsKeepsReady(cfg: Config, st: State, w: World, left: Option<nat>, id: ToolId)
    requires Ready(st, id) && Honest(cfg, w, id) && Response(cfg, w, Opening(w)).needsFollowUp
    ensures var s := Response(cfg, w, Opening(w));
            var o := UseTools(cfg, st, w, Request(st, w), s, left);
            o.Continue? ==> Ready(o.state, id)
  {
    hide Request, AfterBoundary, Paired, Response;
    var s := Response(cfg, w, Opening(w));
    ResponseTallied(cfg, w, Opening(w), id);
    RequestPaired(cfg, st, w, id);
    ToolResultsAnswer(cfg, w, id);
    ReadyAfter(Request(st, w), s.assistants, Normalized(w.toolMessages) + w.attachments, id);
  }

  lemma IterationKeepsReady(cfg: Config, st: State, w: World, id: ToolId)
    requires Ready(st, id) && Honest(cfg, w, id) && Iterate(cfg, st, w).Continue?
    ensures Ready(Iterate(cfg, st, w).state, id)
  {
    var s := Response(cfg, w, Opening(w));
    ResponseTallied(cfg, w, Opening(w), id);
    var left := BudgetAfterCompaction(cfg, st, w);
    if s.needsFollowUp {
      UseToolsKeepsReady(cfg, st, w, left, id);
    } else {
      ConcludeKeepsReady(cfg, st, w, s, left, id);
    }
  }

  ghost predicate AllHonest(cfg: Config, worlds: seq<World>, id: ToolId) { forall w :: w in worlds ==> Honest(cfg, w, id) }

  /** The request of every iteration of a run is paired. */
  ghost predicate RequestsPaired(cfg: Config, st: State, worlds: seq<World>, id: ToolId)
    decreases |worlds|
  {
    worlds == [] ||
    (Paired(Request(st, worlds[0]), id) &&
     match Iterate(cfg, st, worlds[0])
     case Stop(_, _) => true
     case Continue(next, _) => RequestsPaired(cfg, next, worlds[1..], id))
  }

  /** Transcript pairing. Over any run, mixing model fallback, streaming fallback,
      compaction, recoveries, stop-hook retries and tool turns, every request sent
      to the model and the transcript the loop ends with have, for every tool id,
      exactly as many results as uses, no result before its use, and every use
      answered before the model's next response begins. */
  lemma {:induction false} TranscriptPairing(cfg: Config, st: State, worlds: seq<World>, id: ToolId)
    requires Ready(st, id) && AllHonest(cfg, worlds, id)
    ensures RequestsPaired(cfg, st, worlds, id) && Ready(Loop(cfg, st, worlds).state, id)
    decreases |worlds|
  {
    if worlds != [] {
      var w := worlds[0];
      assert w in worlds;
      RequestPaired(cfg, st, w, id);
      if Iterate(cfg, st, w).Continue? {
        IterationKeepsReady(cfg, st, w, id);
        TranscriptPairing(cfg, Iterate(cfg, st, w).state, worlds[1..], id);
      }
    }
  }

  // ---- The conversation only grows ----

  /** What an iteration that goes on without compacting appends to its request. */
  function Appended(cfg: Config, st: State, w: World, t: Transition): seq<Message> {
    var s := Response(cfg, w, Opening(w));
    match t
    case ReactiveCompactRetry => []
    case Escalate => []
    case Recovery(_) => s.assistants + [User(RESUME, [])]
    case StopHookBlocking => s.assistants + w.hookErrors
    case TokenBudgetContinuation => s.assistants + [User(NUDGE, [])]
    case NextTurn => s.assistants + (Normalized(w.toolMessages) + w.attachments)
  }

  lemma NextAppends(cfg: Config, st: State, w: World)
    requires var o := Iterate(cfg, st, w); o.Continue? && o.state.transition != Some(ReactiveCompactRetry)
    ensures var next := Iterate(cfg, st, w).state;
            next.transition.Some? && next.messages == Request(st, w) + Appended(cfg, st, w, next.transition.value)
  {
    hide Request, Response, Normalized;
    var request, s := Request(st, w), Response(cfg, w, Opening(w));
    assert request + [] == request;
    assert request + s.assistants + [User(RESUME, [])] == request + (s.assistants + [User(RESUME, [])]);
    assert request + s.assistants + [User(NUDGE, [])] == request + (s.assistants + [User(NUDGE, [])]);
    assert request + s.assistants + w.hookErrors == request + (s.assistants + w.hookErrors);
    var results := Normalized(w.toolMessages) + w.attachments;
    assert request + s.assistants + results == request + (s.assistants + results);
  }

  lemma AppendedHasNoBoundary(cfg: Config, st: State, w: World, t: Transition, id: ToolId)
    requires Honest(cfg, w, id)
    ensures NoBoundary(Appended(cfg, st, w, t))
  {
    hide Response, Normalized;
    ResponseTallied(cfg, w, Opening(w), id);
    NormalizedAreUsers(w.toolMessages);
    NormalizedKeepsResults(w.toolMessages, id);
  }

  /** Nothing is compacted or edited in place in this iteration. */
  predicate Untouched(w: World) { w.compaction.None? && w.reactive.None? && w.edits == map[] }

  lemma UntouchedRequest(st: State, w: World)
    requires Untouched(w) && Clean(st.messages)
    ensures Request(st, w) == st.messages
  {
    hide AfterBoundary, Clean;
    AfterBoundaryClean(st.messages);
    NoEdits(st.messages);
  }

  lemma NoEdits(messages: seq<Message>)
    ensures Rewrite(messages, map[]) == messages
  {
  }

  lemma UntouchedNeverCompacts(cfg: Config, st: State, w: World)
    requires Untouched(w) && Iterate(cfg, st, w).Continue?
    ensures Iterate(cfg, st, w).state.transition != Some(ReactiveCompactRetry)
  {
    hide Request, Response;
  }

  /** Nothing said is forgotten: over any run without compaction the conversation at its start
      is a prefix of the one at its end, through recoveries, stop hooks and tool turns. */
  lemma {:induction false} ConversationGrows(cfg: Config, st: State, worlds: seq<World>, id: ToolId)
    requires Clean(st.messages) && AllHonest(cfg, worlds, id) && forall w :: w in worlds ==> Untouched(w)
    ensures st.messages <= Loop(cfg, st, worlds).state.messages
    decreases |worlds|
  {
    hide Iterate, Honest, Untouched, Appended, Request;
    if worlds != [] && Iterate(cfg, st, worlds[0]).Continue? {
      var w := worlds[0];
      assert w in worlds;
      var next := Iterate(cfg, st, w).state;
      UntouchedNeverCompacts(cfg, st, w);
      UntouchedRequest(st, w);
      NextAppends(cfg, st, w);
      AppendedHasNoBoundary(cfg, st, w, next.transition.value, id);
      CleanAppend(st.messages, Appended(cfg, st, w, next.transition.value));
      ConversationGrows(cfg, next, worlds[1..], id);
    }
  }

  // ---- What a consumer sees ----

  /** Shown uses, less those answered by a shown result or withdrawn by a tombstone. */
  function Balance(y: Yield, id: ToolId): int {
    match y
    case Out(m) => Uses(m, id) - Results(m, id)
    case Tombstone(m) => -Uses(m, id)
    case _ => 0
  }

  function Open(ys: seq<Yield>, id: ToolId): int {
    if ys == [] then 0 else Open(ys[..|ys| - 1], id) + Balance(ys[|ys| - 1], id)
  }

  lemma {:induction false} OpenConcat(a: seq<Yield>, b: seq<Yield>, id: ToolId)
    ensures Open(a + b, id) == Open(a, id) + Open(b, id)
    decreases |b|
  {
    if b == [] {
      assert a + b == a;
    } else {
      assert (a + b)[..|a + b| - 1] == a + b[..|b| - 1];
      OpenConcat(a, b[..|b| - 1], id);
    }
  }

  lemma OpenOne(y: Yield, id: ToolId)
    ensures Open([y], id) == Balance(y, id)
  {
    assert [y][..0] == [];
  }

  lemma {:induction false} OpenOuts(messages: seq<Message>, id: ToolId)
    ensures Open(Outs(messages), id) == UsesIn(messages, id) - ResultsIn(messages, id)
  {
    if messages != [] {
      OpenOuts(messages[..|messages| - 1], id);
      assert Outs(messages)[..|messages| - 1] == Outs(messages[..|messages| - 1]);
    }
  }

  lemma {:induction false} OpenTombstones(messages: seq<Message>, id: ToolId)
    ensures Open(Tombstones(messages), id) == -UsesIn(messages, id)
  {
    if messages != [] {
      OpenTombstones(messages[..|messages| - 1], id);
      assert Tombstones(messages)[..|messages| - 1] == Tombstones(messages[..|messages| - 1]);
    }
  }

  lemma {:induction false} OpenAnswers(ids: seq<ToolId>, why: Body, id: ToolId)
    ensures Open(Answers(ids, why), id) == -Occurrences(ids, id)
  {
    if ids != [] {
      OpenAnswers(ids[..|ids| - 1], why, id);
      assert Answers(ids, why)[..|ids| - 1] == Answers(ids[..|ids| - 1], why);
      var last := ids[|ids| - 1];
      assert [last][..0] == [];
      assert Occurrences([last], id) == if last == id then 1 else 0;
    }
  }

  lemma {:induction false} OpenMissing(assistants: seq<Message>, why: Body, id: ToolId)
    ensures Open(MissingResults(assistants, why), id) == -UsesIn(assistants, id)
  {
    if assistants != [] {
      var last := assistants[|assistants| - 1];
      var init := assistants[..|assistants| - 1];
      OpenMissing(init, why, id);
      if last.Assistant? {
        OpenAnswers(last.toolUses, why, id);
        OpenConcat(MissingResults(init, why), Answers(last.toolUses, why), id);
      } else {
        assert MissingResults(init, why) + [] == MissingResults(init, why);
      }
    }
  }

  lemma DropOpen(s: Stream, id: ToolId)
    requires Open(s.shown, id) == UsesIn(s.assistants, id)
    ensures Open(DropOrphans(s).shown, id) == UsesIn(DropOrphans(s).assistants, id)
  {
    OpenTombstones(s.assistants, id);
    OpenConcat(s.shown, Tombstones(s.assistants), id);
  }

  lemma StreamedOpen(cfg: Config, w: World, d: Stream, m: Message, id: ToolId)
    requires Open(d.shown, id) == UsesIn(d.assistants, id) && GoodItem(Streamed(m)) && !d.fellBack
    ensures Open(Consume(cfg, w, d, Streamed(m)).shown, id) == UsesIn(Consume(cfg, w, d, Streamed(m)).assistants, id)
  {
    hide Open, UsesIn, ResultsIn, Withheld;
    OpenOne(Out(m), id);
    OpenConcat(d.shown, [Out(m)], id);
    assert d.shown + [] == d.shown;
    InOne(m, id);
    InConcat(d.assistants, [m], id);
    WithheldUsesNothing(cfg, w, m, id);
  }

  lemma WithheldUsesNothing(cfg: Config, w: World, m: Message, id: ToolId)
    requires GoodItem(Streamed(m))
    ensures Withheld(cfg, w, m) ==> Uses(m, id) == 0
    ensures !m.Assistant? ==> Uses(m, id) == 0
    ensures Results(m, id) == 0
  {
  }

  lemma EventOpen(ys: seq<Yield>, b: Body, id: ToolId)
    ensures Open(ys + [StreamEvent(b)], id) == Open(ys, id)
  {
    OpenOne(StreamEvent(b), id);
    OpenConcat(ys, [StreamEvent(b)], id);
  }

  lemma ConsumeOneOpen(cfg: Config, w: World, s: Stream, item: StreamItem, id: ToolId)
    requires Open(s.shown, id) == UsesIn(s.assistants, id) && GoodItem(item)
    ensures Open(Consume(cfg, w, s, item).shown, id) == UsesIn(Consume(cfg, w, s, item).assistants, id)
  {
    DropOpen(s, id);
    var d := DropOrphans(s);
    match item
    case FallbackSignal =>
    case Event(b) => EventOpen(d.shown, b, id);
    case Streamed(m) => StreamedOpen(cfg, w, d.(fellBack := false), m, id);
  }

  /** While streaming, exactly the uses of the kept assistant messages are open. */
  lemma {:induction false} StreamOpen(cfg: Config, w: World, s: Stream, items: seq<StreamItem>, id: ToolId)
    requires Open(s.shown, id) == UsesIn(s.assistants, id) && GoodItems(items)
    ensures Open(ConsumeAll(cfg, w, s, items).shown, id) == UsesIn(ConsumeAll(cfg, w, s, items).assistants, id)
    decreases |items|
  {
    if items != [] {
      StreamOpen(cfg, w, s, items[..|items| - 1], id);
      assert items[|items| - 1] in items;
      ConsumeOneOpen(cfg, w, ConsumeAll(cfg, w, s, items[..|items| - 1]), items[|items| - 1], id);
    }
  }

  lemma OneFallbackOpen(cfg: Config, w: World, before: seq<Yield>, items: seq<StreamItem>, id: ToolId)
    requires Open(before, id) == 0 && GoodItems(items)
    ensures var s := ConsumeAll(cfg, w, Fresh(before), items);
            Open(s.shown + MissingResults(s.assistants, MODEL_FALLBACK) + [Out(System(SWITCHED_MODEL, false))], id) == 0
  {
    var s := ConsumeAll(cfg, w, Fresh(before), items);
    StreamOpen(cfg, w, Fresh(before), items, id);
    var missing := MissingResults(s.assistants, MODEL_FALLBACK);
    var notice := Out(System(SWITCHED_MODEL, false));
    OpenMissing(s.assistants, MODEL_FALLBACK, id);
    OpenConcat(s.shown, missing, id);
    OpenOne(notice, id);
    OpenConcat(s.shown + missing, [notice], id);
  }

  lemma {:induction false} FallbacksOpen(cfg: Config, w: World, k: nat, ys: seq<Yield>, id: ToolId)
    requires k <= |w.fallbacks| && Open(ys, id) == 0 && forall items :: items in w.fallbacks ==> GoodItems(items)
    ensures Open(AfterFallbacks(cfg, w, k, ys), id) == 0
  {
    if k > 0 {
      FallbacksOpen(cfg, w, k - 1, ys, id);
      assert w.fallbacks[k - 1] in w.fallbacks;
      OneFallbackOpen(cfg, w, AfterFallbacks(cfg, w, k - 1, ys), w.fallbacks[k - 1], id);
    }
  }

  lemma OpeningOpen(cfg: Config, w: World, id: ToolId)
    requires Honest(cfg, w, id)
    ensures Open(Opening(w), id) == 0
  {
    OpenOne(RequestStart, id);
    if w.compaction.Some? {
      OpenOuts(w.compaction.value.messages, id);
      OpenConcat([RequestStart], Outs(w.compaction.value.messages), id);
    } else {
      assert [RequestStart] + [] == [RequestStart];
    }
  }

  lemma ResponseOpen(cfg: Config, w: World, id: ToolId)
    requires Honest(cfg, w, id)
    ensures var s := Response(cfg, w, Opening(w)); Open(s.shown, id) == UsesIn(s.assistants, id)
  {
    OpeningOpen(cfg, w, id);
    FallbacksOpen(cfg, w, |w.fallbacks|, Opening(w), id);
    StreamOpen(cfg, w, Fresh(AfterFallbacks(cfg, w, |w.fallbacks|, Opening(w))), w.items, id);
  }

  lemma PlainOpen(messages: seq<Message>, id: ToolId)
    requires Plain(messages)
    ensures Open(Outs(messages), id) == 0
  {
    OpenOuts(messages, id);
    PlainHasNoTools(messages, id);
  }

  lemma PlainOneOpen(m: Message, id: ToolId)
    requires Plain([m])
    ensures Open([Out(m)], id) == 0
  {
    assert m in [m];
    OpenOne(Out(m), id);
  }

  lemma {:induction false} NoAssistantNoUses(messages: seq<Message>, id: ToolId)
    requires forall m :: m in messages ==> !m.Assistant?
    ensures UsesIn(messages, id) == 0
  {
    if messages != [] {
      NoAssistantNoUses(messages[..|messages| - 1], id);
      assert messages[|messages| - 1] in messages;
    }
  }

  lemma LastAssistantOpen(s: Stream, id: ToolId)
    requires s.assistants != [] && Tallied(s, id) && !s.needsFollowUp
    ensures Open([Out(s.assistants[|s.assistants| - 1])], id) == 0
  {
    var last := s.assistants[|s.assistants| - 1];
    assert last in s.assistants;
    OpenOne(Out(last), id);
  }

  lemma ConcludeSettles(cfg: Config, st: State, w: World, request: seq<Message>, s: Stream, left: Option<nat>, id: ToolId)
    requires Honest(cfg, w, id) && Tallied(s, id) && !s.needsFollowUp
    ensures Open(Conclude(cfg, st, w, request, s, left).shown, id) == 0
  {
    PlainOpen(w.hookMessages, id);
    if w.reactive.Some? { OpenOuts(w.reactive.value.messages, id); }
    if s.assistants != [] { LastAssistantOpen(s, id); }
  }

  lemma UseToolsSettles(cfg: Config, st: State, w: World, request: seq<Message>, left: Option<nat>, id: ToolId)
    requires Honest(cfg, w, id) && Response(cfg, w, Opening(w)).needsFollowUp
    ensures var s := Response(cfg, w, Opening(w));
            Open(UseTools(cfg, st, w, request, s, left).shown, id) == -UsesIn(s.assistants, id)
  {
    hide Response, Open, UsesIn, ResultsIn, Halts, Normalized, Outs;
    var s := Response(cfg, w, Opening(w));
    ResponseTallied(cfg, w, Opening(w), id);
    OpenNothing(id);
    OpenOuts(w.toolMessages, id);
    NoAssistantNoUses(w.toolMessages, id);
    PlainOneOpen(User(INTERRUPTION, []), id);
    PlainOneOpen(Attachment(MAX_TURNS_REACHED, false), id);
    PlainOpen(w.attachments, id);
    var ran := Outs(w.toolMessages);
    var over := cfg.maxTurns != 0 && st.turnCount + 1 > cfg.maxTurns;
    var notice := if over then [Out(Attachment(MAX_TURNS_REACHED, false))] else [];
    var cry := if w.submitInterrupt then [] else [Out(User(INTERRUPTION, []))];
    OpenConcat(ran, cry, id);
    OpenConcat(ran + cry, notice, id);
    OpenConcat(ran, Outs(w.attachments), id);
    OpenConcat(ran + Outs(w.attachments), notice, id);
  }

  lemma OpenNothing(id: ToolId)
    ensures Open([], id) == 0
  {
  }

  lemma GiveUpSettles(assistants: seq<Message>, why: Body, tail: seq<Yield>, id: ToolId)
    requires Open(tail, id) == 0
    ensures Open(MissingResults(assistants, why) + tail, id) == -UsesIn(assistants, id)
  {
    OpenMissing(assistants, why, id);
    OpenConcat(MissingResults(assistants, why), tail, id);
  }

  lemma AfterStreamSettles(cfg: Config, st: State, w: World, id: ToolId)
    requires Honest(cfg, w, id) && w.end != Threw(true)
    ensures var s := Response(cfg, w, Opening(w));
            var o := AfterStream(cfg, st, w, Request(st, w), s, BudgetAfterCompaction(cfg, st, w));
            Open(o.shown, id) == -UsesIn(s.assistants, id)
  {
    var s := Response(cfg, w, Opening(w));
    var left := BudgetAfterCompaction(cfg, st, w);
    ResponseTallied(cfg, w, Opening(w), id);
    if w.end.Threw? {
      OpenOne(ApiError(MODEL_FAILED, OtherError), id);
      GiveUpSettles(s.assistants, MODEL_FAILED, [ApiError(MODEL_FAILED, OtherError)], id);
    } else if w.aborted {
      PlainOneOpen(User(INTERRUPTION, []), id);
      GiveUpSettles(s.assistants, INTERRUPTED, if w.submitInterrupt then [] else [Out(User(INTERRUPTION, []))], id);
    } else if s.needsFollowUp {
      UseToolsSettles(cfg, st, w, Request(st, w), left, id);
    } else {
      ConcludeSettles(cfg, st, w, Request(st, w), s, left, id);
    }
  }

  /** Unless an image error was thrown, an iteration leaves no use open. */
  lemma IterationSettles(cfg: Config, st: State, w: World, id: ToolId)
    requires Honest(cfg, w, id)
    ensures Open(Iterate(cfg, st, w).shown, id)
            == if !(w.compaction.None? && w.blocked) && w.end == Threw(true)
               then UsesIn(Response(cfg, w, Opening(w)).assistants, id) else 0
  {
    OpeningOpen(cfg, w, id);
    if w.compaction.None? && w.blocked {
      OpenOne(ApiError(TOO_LONG, PromptTooLong), id);
      OpenConcat(Opening(w), [ApiError(TOO_LONG, PromptTooLong)], id);
    } else {
      var s := Response(cfg, w, Opening(w));
      var o := AfterStream(cfg, st, w, Request(st, w), s, BudgetAfterCompaction(cfg, st, w));
      ResponseOpen(cfg, w, id);
      OpenConcat(s.shown, o.shown, id);
      if w.end == Threw(true) {
        OpenOne(ApiError(MODEL_FAILED, OtherError), id);
      } else {
        AfterStreamSettles(cfg, st, w, id);
      }
    }
  }

  /** Consumer pairing. Whatever ends a run, in all that it has shown the uses of
      every tool id are as many as its results and withdrawals; only a thrown
      image error leaves the last response's uses open. */
  lemma {:induction false} ConsumerPairing(cfg: Config, st: State, worlds: seq<World>, id: ToolId)
    requires AllHonest(cfg, worlds, id) && forall w :: w in worlds ==> w.end != Threw(true)
    ensures Open(Loop(cfg, st, worlds).shown, id) == 0
    decreases |worlds|
  {
    if worlds != [] {
      var w := worlds[0];
      assert w in worlds;
      IterationSettles(cfg, st, w, id);
      var o := Iterate(cfg, st, w);
      if o.Continue? {
        ConsumerPairing(cfg, o.state, worlds[1..], id);
        OpenConcat(o.shown, Loop(cfg, o.state, worlds[1..]).shown, id);
      }
    }
  }

  /** The exception, exactly: an image error thrown after a response leaves an id
      unanswered if and only if that response used the id. */
  lemma ImageErrorLeavesUsesOpen(cfg: Config, st: State, w: World, id: ToolId)
    requires Honest(cfg, w, id) && w.end == Threw(true) && !(w.compaction.None? && w.blocked)
    ensures Iterate(cfg, st, w).Stop? && Iterate(cfg, st, w).reason == ImageError
    ensures Open(Iterate(cfg, st, w).shown, id) == Occurrences(Response(cfg, w, Opening(w)).toolBlocks, id)
  {
    IterationSettles(cfg, st, w, id);
    ResponseTallied(cfg, w, Opening(w), id);
  }
}
