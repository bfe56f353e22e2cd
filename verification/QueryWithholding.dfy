/** Errors that may still be recovered from are withheld: how often each assistant
    message is shown, over a stream, an iteration and a run. */
module QueryWithholding {
  import opened Prelude
  import opened QueryLoop
  import opened QueryRecovery

  // ---- Counting what is shown ----

  function Shows(ys: seq<Yield>, m: Message): nat {
    if ys == [] then 0 else Shows(ys[..|ys| - 1], m) + if ys[|ys| - 1] == Out(m) then 1 else 0
  }

  function Times(messages: seq<Message>, m: Message): nat {
    if messages == [] then 0 else Times(messages[..|messages| - 1], m) + if messages[|messages| - 1] == m then 1 else 0
  }

  /** How often a stream brings the message. */
  function Streams(items: seq<StreamItem>, m: Message): nat {
    if items == [] then 0 else Streams(items[..|items| - 1], m) + if items[|items| - 1] == Streamed(m) then 1 else 0
  }

  function StreamsBefore(w: World, k: nat, m: Message): nat
    requires k <= |w.fallbacks|
  {
    if k == 0 then 0 else StreamsBefore(w, k - 1, m) + Streams(w.fallbacks[k - 1], m)
  }

  /** How often the model sends the message in this iteration, in all attempts. */
  function StreamedIn(w: World, m: Message): nat { StreamsBefore(w, |w.fallbacks|, m) + Streams(w.items, m) }

  /** How often a proactive compaction shows the message among those it kept. */
  function Kept(w: World, m: Message): nat { if w.compaction.Some? then Times(w.compaction.value.messages, m) else 0 }

  lemma {:induction false} ShowsConcat(a: seq<Yield>, b: seq<Yield>, m: Message)
    ensures Shows(a + b, m) == Shows(a, m) + Shows(b, m)
    decreases |b|
  {
    if b == [] {
      assert a + b == a;
    } else {
      assert (a + b)[..|a + b| - 1] == a + b[..|b| - 1];
      ShowsConcat(a, b[..|b| - 1], m);
    }
  }

  lemma ShowsOne(a: seq<Yield>, y: Yield, m: Message)
    ensures Shows(a + [y], m) == Shows(a, m) + if y == Out(m) then 1 else 0
    ensures Shows([y], m) == if y == Out(m) then 1 else 0
  {
    assert (a + [y])[..|a|] == a;
    assert [y][..0] == [];
  }

  lemma {:induction false} ShowsOuts(messages: seq<Message>, m: Message)
    ensures Shows(Outs(messages), m) == Times(messages, m)
  {
    if messages != [] {
      ShowsOuts(messages[..|messages| - 1], m);
      assert Outs(messages)[..|messages| - 1] == Outs(messages[..|messages| - 1]);
    }
  }

  lemma {:induction false} ShowsNothing(ys: seq<Yield>, m: Message)
    requires forall i :: 0 <= i < |ys| ==> ys[i] != Out(m)
    ensures Shows(ys, m) == 0
  {
    if ys != [] {
      ShowsNothing(ys[..|ys| - 1], m);
    }
  }

  lemma NoAssistantsShowNone(messages: seq<Message>, m: Message)
    requires NoAssistants(messages) && m.Assistant?
    ensures Shows(Outs(messages), m) == 0
  {
    ShowsNothing(Outs(messages), m);
  }

  lemma {:induction false} MissingResultsShowNone(assistants: seq<Message>, why: Body, m: Message)
    requires m.Assistant?
    ensures Shows(MissingResults(assistants, why), m) == 0
  {
    if assistants != [] {
      var last := assistants[|assistants| - 1];
      MissingResultsShowNone(assistants[..|assistants| - 1], why, m);
      var answers := if last.Assistant? then Answers(last.toolUses, why) else [];
      ShowsNothing(answers, m);
      ShowsConcat(MissingResults(assistants[..|assistants| - 1], why), answers, m);
    }
  }

  // ---- The stream ----

  lemma DropShowsNone(s: Stream, m: Message)
    ensures Shows(DropOrphans(s).shown, m) == Shows(s.shown, m)
  {
    ShowsNothing(Tombstones(s.assistants), m);
    ShowsConcat(s.shown, Tombstones(s.assistants), m);
  }

  lemma ConsumeShows(cfg: Config, w: World, s: Stream, item: StreamItem, m: Message)
    ensures Shows(Consume(cfg, w, s, item).shown, m)
            == Shows(s.shown, m) + if item == Streamed(m) && !Withheld(cfg, w, m) then 1 else 0
  {
    hide Withheld, Shows;
    DropShowsNone(s, m);
    var shown := DropOrphans(s).shown;
    match item {
      case FallbackSignal =>
      case Event(b) => ShowsOne(shown, StreamEvent(b), m);
      case Streamed(x) =>
        ShowsOne(shown, Out(x), m);
        assert shown + [] == shown;
    }
  }

  lemma {:induction false} ConsumeAllShows(cfg: Config, w: World, s: Stream, items: seq<StreamItem>, m: Message)
    ensures Shows(ConsumeAll(cfg, w, s, items).shown, m)
            == Shows(s.shown, m) + if Withheld(cfg, w, m) then 0 else Streams(items, m)
    decreases |items|
  {
    hide Withheld, Shows, Consume;
    if items != [] {
      var init := items[..|items| - 1];
      ConsumeAllShows(cfg, w, s, init, m);
      ConsumeShows(cfg, w, ConsumeAll(cfg, w, s, init), items[|items| - 1], m);
    }
  }

  lemma {:induction false} FallbacksShow(cfg: Config, w: World, k: nat, ys: seq<Yield>, m: Message)
    requires k <= |w.fallbacks| && m.Assistant?
    ensures Shows(AfterFallbacks(cfg, w, k, ys), m) == Shows(ys, m) + if Withheld(cfg, w, m) then 0 else StreamsBefore(w, k, m)
  {
    hide Withheld, Shows, ConsumeAll, MissingResults, Streams;
    if k > 0 {
      FallbacksShow(cfg, w, k - 1, ys, m);
      var s := Fresh(AfterFallbacks(cfg, w, k - 1, ys));
      var t := ConsumeAll(cfg, w, s, w.fallbacks[k - 1]);
      ConsumeAllShows(cfg, w, s, w.fallbacks[k - 1], m);
      MissingResultsShowNone(t.assistants, MODEL_FALLBACK, m);
      ShowsConcat(t.shown, MissingResults(t.assistants, MODEL_FALLBACK), m);
      ShowsOne(t.shown + MissingResults(t.assistants, MODEL_FALLBACK), Out(System(SWITCHED_MODEL, false)), m);
    }
  }

  lemma OpeningShows(w: World, m: Message)
    ensures Shows(Opening(w), m) == Kept(w, m)
  {
    ShowsOne([], RequestStart, m);
    assert [] + [RequestStart] == [RequestStart];
    if w.compaction.Some? {
      ShowsOuts(w.compaction.value.messages, m);
      ShowsConcat([RequestStart], Outs(w.compaction.value.messages), m);
    }
  }

  /** The response, through every attempt and every fallback, shows a message as often as
      compaction kept it and, unless it is withheld, as often as the model sent it. */
  lemma ResponseShows(cfg: Config, w: World, m: Message)
    requires m.Assistant?
    ensures Shows(Response(cfg, w, Opening(w)).shown, m) == Kept(w, m) + if Withheld(cfg, w, m) then 0 else StreamedIn(w, m)
  {
    hide Withheld, Shows, Kept, Opening;
    OpeningShows(w, m);
    FallbacksShow(cfg, w, |w.fallbacks|, Opening(w), m);
    ConsumeAllShows(cfg, w, Fresh(AfterFallbacks(cfg, w, |w.fallbacks|, Opening(w))), w.items, m);
  }

  // ---- One iteration ----

  predicate Blocked(w: World) { w.compaction.None? && w.blocked }

  /** The response came to its end without abort or tool use, and `m` is its last message. */
  predicate EndsAt(cfg: Config, w: World, m: Message) {
    var s := Response(cfg, w, Opening(w));
    !Blocked(w) && w.end.Finished? && !w.aborted && !s.needsFollowUp
    && s.assistants != [] && s.assistants[|s.assistants| - 1] == m
  }

  /** The errors the no-tool path shows itself when it gives up. */
  predicate Recoverable(cfg: Config, w: World, m: Message) {
    m.Assistant? && m.error.Some? &&
    match m.error.value
    case PromptTooLong => cfg.reactive
    case MediaSize => cfg.reactive && w.mediaRecovery
    case MaxOutputTokens => true
    case OtherError => false
  }

  /** The iteration ends the run by showing `m` itself. */
  predicate Surfaces(cfg: Config, st: State, w: World, m: Message) {
    Iterate(cfg, st, w).Stop? &&
    (|| (Blocked(w) && Out(m) == ApiError(TOO_LONG, PromptTooLong))
     || (!Blocked(w) && w.end.Threw? && Out(m) == ApiError(MODEL_FAILED, OtherError))
     || (EndsAt(cfg, w, m) && Recoverable(cfg, w, m)))
  }

  /** How often a reactive compaction shows the message among those it kept. */
  function KeptAgain(cfg: Config, st: State, w: World, m: Message): nat {
    var o := Iterate(cfg, st, w);
    if o.Continue? && o.state.transition == Some(ReactiveCompactRetry) && w.reactive.Some? then Times(w.reactive.value.messages, m) else 0
  }

  /** Hooks, tools and attachments bring no assistant messages. */
  predicate Discreet(w: World) { NoAssistants(w.hookMessages) && NoAssistants(w.toolMessages) && NoAssistants(w.attachments) }

  function One(b: bool): nat { if b then 1 else 0 }

  lemma ConcludeShows(cfg: Config, st: State, w: World, request: seq<Message>, s: Stream, left: Option<nat>, m: Message)
    requires m.Assistant? && NoAssistants(w.hookMessages)
    ensures var o := Conclude(cfg, st, w, request, s, left);
            Shows(o.shown, m) ==
            (if o.Continue? && o.state.transition == Some(ReactiveCompactRetry) && w.reactive.Some?
             then Times(w.reactive.value.messages, m) else 0)
            + One(o.Stop? && s.assistants != [] && s.assistants[|s.assistants| - 1] == m && Recoverable(cfg, w, m))
  {
    hide Shows, Times;
    NoAssistantsShowNone(w.hookMessages, m);
    if w.reactive.Some? { ShowsOuts(w.reactive.value.messages, m); }
    ShowsNothing([], m);
    if s.assistants != [] { ShowsOne([], Out(s.assistants[|s.assistants| - 1]), m); }
  }

  lemma UseToolsShows(cfg: Config, st: State, w: World, request: seq<Message>, s: Stream, left: Option<nat>, m: Message)
    requires m.Assistant? && NoAssistants(w.toolMessages) && NoAssistants(w.attachments)
    ensures Shows(UseTools(cfg, st, w, request, s, left).shown, m) == 0
  {
    hide Shows, Halts, Normalized;
    var ran, attached := Outs(w.toolMessages), Outs(w.attachments);
    assert forall i :: 0 <= i < |ran| ==> ran[i] != Out(m);
    assert forall i :: 0 <= i < |attached| ==> attached[i] != Out(m);
    ShowsNothing(UseTools(cfg, st, w, request, s, left).shown, m);
  }

  lemma BrokenOffShows(assistants: seq<Message>, why: Body, tail: seq<Yield>, m: Message)
    requires m.Assistant? && |tail| <= 1
    ensures Shows(MissingResults(assistants, why) + tail, m) == One(tail == [Out(m)])
  {
    MissingResultsShowNone(assistants, why, m);
    ShowsConcat(MissingResults(assistants, why), tail, m);
    if tail == [] { ShowsNothing(tail, m); } else { ShowsOne([], tail[0], m); assert tail == [tail[0]]; }
  }

  lemma AfterStreamShows(cfg: Config, st: State, w: World, request: seq<Message>, s: Stream, left: Option<nat>, m: Message)
    requires m.Assistant? && Discreet(w)
    ensures var o := AfterStream(cfg, st, w, request, s, left);
            Shows(o.shown, m) ==
            (if o.Continue? && o.state.transition == Some(ReactiveCompactRetry) && w.reactive.Some?
             then Times(w.reactive.value.messages, m) else 0)
            + One(o.Stop? &&
                  ((w.end.Threw? && Out(m) == ApiError(MODEL_FAILED, OtherError))
                   || (w.end.Finished? && !w.aborted && !s.needsFollowUp
                       && s.assistants != [] && s.assistants[|s.assistants| - 1] == m && Recoverable(cfg, w, m))))
  {
    hide Shows, Times, MissingResults, Conclude, UseTools;
    if w.end.Threw? {
      if w.end.image {
        ShowsOne([], ApiError(MODEL_FAILED, OtherError), m);
      } else {
        BrokenOffShows(s.assistants, MODEL_FAILED, [ApiError(MODEL_FAILED, OtherError)], m);
      }
    } else if w.aborted {
      BrokenOffShows(s.assistants, INTERRUPTED, if w.submitInterrupt then [] else [Out(User(INTERRUPTION, []))], m);
    } else if !s.needsFollowUp {
      ConcludeShows(cfg, st, w, request, s, left, m);
    } else {
      UseToolsShows(cfg, st, w, request, s, left, m);
      ToolsNeverCompact(cfg, st, w, request, s, left);
    }
  }

  lemma ToolsNeverCompact(cfg: Config, st: State, w: World, request: seq<Message>, s: Stream, left: Option<nat>)
    ensures var o := UseTools(cfg, st, w, request, s, left);
            o.Continue? ==> o.state.transition == Some(NextTurn)
  {
  }

  /** What one iteration shows of any assistant message, counted. */
  lemma IterationShows(cfg: Config, st: State, w: World, m: Message)
    requires m.Assistant? && Discreet(w)
    ensures Shows(Iterate(cfg, st, w).shown, m)
            == Kept(w, m) + (if Withheld(cfg, w, m) || Blocked(w) then 0 else StreamedIn(w, m))
               + KeptAgain(cfg, st, w, m) + One(Surfaces(cfg, st, w, m))
  {
    hide Shows, Times, AfterStream, Response, Withheld, Recoverable, Request, BudgetAfterCompaction;
    if Blocked(w) {
      OpeningShows(w, m);
      ShowsOne(Opening(w), ApiError(TOO_LONG, PromptTooLong), m);
    } else {
      var s := Response(cfg, w, Opening(w));
      var o := AfterStream(cfg, st, w, Request(st, w), s, BudgetAfterCompaction(cfg, st, w));
      ResponseShows(cfg, w, m);
      AfterStreamShows(cfg, st, w, Request(st, w), s, BudgetAfterCompaction(cfg, st, w), m);
      ShowsConcat(s.shown, o.shown, m);
    }
  }

  // ---- The fate of a withheld error ----

  /** A withheld error that ends a response has one of two fates. Either the iteration goes on with one
      retry, or it ends the run, showing the error as the last thing and nowhere
      before, save in what a compaction kept. */
  lemma WithheldErrorRetriedOrShown(cfg: Config, st: State, w: World, m: Message)
    requires EndsAt(cfg, w, m) && Withheld(cfg, w, m)
    ensures match Iterate(cfg, st, w)
            case Continue(next, _) => next.transition.Some? && IsRetry(next.transition.value)
            case Stop(r, ys) =>
              && r in {TooLong, ImageError, Completed}
              && ys != [] && ys[|ys| - 1] == Out(m) && Shows(ys[..|ys| - 1], m) == Kept(w, m)
  {
    hide Shows, Response, Request, BudgetAfterCompaction, Opening;
    var s := Response(cfg, w, Opening(w));
    ResponseShows(cfg, w, m);
    var o := Iterate(cfg, st, w);
    if o.Stop? {
      assert o.shown == s.shown + [Out(m)];
      assert o.shown[..|o.shown| - 1] == s.shown;
    }
  }

  predicate Retried(o: Outcome) { o.Continue? && o.state.transition.Some? && IsRetry(o.state.transition.value) }

  /** And only then: a withheld last error is retried or shown if and only if the stream finished
      without abort and without tool use; otherwise nothing is seen of it. */
  lemma WithheldErrorLost(cfg: Config, st: State, w: World, m: Message)
    requires Discreet(w) && !Blocked(w) && Withheld(cfg, w, m)
    requires var s := Response(cfg, w, Opening(w)); s.assistants != [] && s.assistants[|s.assistants| - 1] == m
    ensures var o := Iterate(cfg, st, w);
            var ended := w.end.Finished? && !w.aborted && !Response(cfg, w, Opening(w)).needsFollowUp;
            && (Retried(o) || Shows(o.shown, m) > Kept(w, m) <==> ended)
            && (!ended ==> Shows(o.shown, m) == Kept(w, m))
  {
    hide Shows, Response, Request, BudgetAfterCompaction, Opening, MissingResults;
    IterationShows(cfg, st, w, m);
    if EndsAt(cfg, w, m) {
      SurfacedOrRetried(cfg, st, w, m);
    } else {
      NotEndedNotRetried(cfg, st, w);
    }
  }

  lemma SurfacedOrRetried(cfg: Config, st: State, w: World, m: Message)
    requires EndsAt(cfg, w, m) && Withheld(cfg, w, m)
    ensures Retried(Iterate(cfg, st, w)) || Surfaces(cfg, st, w, m)
  {
    hide Response;
    WithheldErrorRetriedOrShown(cfg, st, w, m);
  }

  lemma NotEndedNotRetried(cfg: Config, st: State, w: World)
    requires Blocked(w) || w.end.Threw? || w.aborted || Response(cfg, w, Opening(w)).needsFollowUp
    ensures !Retried(Iterate(cfg, st, w))
  {
    hide Response, Request;
  }

  /** An unrecovered prompt-too-long error with the module present, in any response it ends: it is shown
      once if the module's withholding test recognises it, and otherwise once more
      than the model sent it, so a single one is shown twice. */
  lemma UnwithheldErrorShownTwice(cfg: Config, st: State, w: World, m: Message)
    requires EndsAt(cfg, w, m) && m.Assistant? && m.error == Some(PromptTooLong)
    requires cfg.reactive && w.reactive.None?
    ensures Iterate(cfg, st, w).Stop? && Iterate(cfg, st, w).reason == TooLong
    ensures Shows(Iterate(cfg, st, w).shown, m) == Kept(w, m) + 1 + if cfg.withholdsTooLong then 0 else StreamedIn(w, m)
    ensures Kept(w, m) == 0 && StreamedIn(w, m) == 1 ==> (Shows(Iterate(cfg, st, w).shown, m) == 2 <==> !cfg.withholdsTooLong)
  {
    hide Shows, Response, Request, BudgetAfterCompaction, Opening;
    ResponseShows(cfg, w, m);
    var s := Response(cfg, w, Opening(w));
    assert Iterate(cfg, st, w) == Stop(TooLong, s.shown + [Out(m)]);
    ShowsOne(s.shown, Out(m), m);
  }

  /** How often the error a response ends with is shown when the run ends with it, kind by kind: a recoverable
      one once, any other as often as the model sent it, and a prompt-too-long
      error the module does not recognise both ways. */
  function TimesShown(cfg: Config, w: World, kind: ErrorKind, sent: nat): nat {
    match kind
    case MaxOutputTokens => 1
    case MediaSize => if cfg.reactive && w.mediaRecovery then 1 else sent
    case PromptTooLong => if !cfg.reactive then sent else if cfg.withholdsTooLong then 1 else sent + 1
    case OtherError => sent
  }

  lemma FinalErrorShown(cfg: Config, st: State, w: World, m: Message)
    requires EndsAt(cfg, w, m) && m.Assistant? && m.error.Some? && Discreet(w)
    ensures var o := Iterate(cfg, st, w);
            Shows(o.shown, m) == Kept(w, m) +
            if o.Stop? then TimesShown(cfg, w, m.error.value, StreamedIn(w, m))
            else KeptAgain(cfg, st, w, m) + if m.error.value == PromptTooLong && !cfg.withholdsTooLong then StreamedIn(w, m) else 0
  {
    hide Shows, Response, Request, BudgetAfterCompaction, Opening, Kept, StreamedIn, Times;
    IterationShows(cfg, st, w, m);
  }

  predicate IsOutputError(m: Message) { m.Assistant? && m.error == Some(MaxOutputTokens) }

  lemma {:induction false} ShownAtAll(ys: seq<Yield>, m: Message)
    ensures Out(m) in ys <==> Shows(ys, m) > 0
  {
    if ys != [] {
      var init := ys[..|ys| - 1];
      ShownAtAll(init, m);
      assert ys == init + [ys[|ys| - 1]];
    }
  }

  lemma {:induction false} AmongAtAll(messages: seq<Message>, m: Message)
    ensures m in messages <==> Times(messages, m) > 0
  {
    if messages != [] {
      var init := messages[..|messages| - 1];
      AmongAtAll(init, m);
      assert messages == init + [messages[|messages| - 1]];
    }
  }

  lemma SurfacedWhenExhausted(cfg: Config, st: State, w: World, m: Message)
    requires IsOutputError(m) && Surfaces(cfg, st, w, m)
    ensures st.recoveryCount >= RECOVERY_LIMIT
  {
    hide Response, Request, BudgetAfterCompaction;
  }

  /** Output-limit errors wait. Such an error is shown only when the recoveries are
      used up, unless a compaction shows it among the messages it kept. */
  lemma OutputErrorShownWhenExhausted(cfg: Config, st: State, w: World, m: Message)
    requires Discreet(w) && IsOutputError(m) && Out(m) in Iterate(cfg, st, w).shown
    ensures || st.recoveryCount >= RECOVERY_LIMIT
            || (w.compaction.Some? && m in w.compaction.value.messages)
            || (w.reactive.Some? && m in w.reactive.value.messages)
  {
    hide Shows, Times, Iterate, Surfaces;
    IterationShows(cfg, st, w, m);
    ShownAtAll(Iterate(cfg, st, w).shown, m);
    if w.compaction.Some? { AmongAtAll(w.compaction.value.messages, m); }
    if w.reactive.Some? { AmongAtAll(w.reactive.value.messages, m); }
    if Surfaces(cfg, st, w, m) { SurfacedWhenExhausted(cfg, st, w, m); }
  }

  // ---- Whole runs ----

  /** How often compactions, proactive and reactive, of the iterations reached show the message. */
  function KeptOver(cfg: Config, st: State, worlds: seq<World>, m: Message): nat
    decreases |worlds|
  {
    if worlds == [] then 0
    else
      Kept(worlds[0], m) + KeptAgain(cfg, st, worlds[0], m)
      + if Iterate(cfg, st, worlds[0]).Continue? then KeptOver(cfg, Iterate(cfg, st, worlds[0]).state, worlds[1..], m) else 0
  }

  /** How often the iterations reached pass it on from the model. */
  function PassedOver(cfg: Config, st: State, worlds: seq<World>, m: Message): nat
    decreases |worlds|
  {
    if worlds == [] then 0
    else
      (if Withheld(cfg, worlds[0], m) || Blocked(worlds[0]) then 0 else StreamedIn(worlds[0], m))
      + if Iterate(cfg, st, worlds[0]).Continue? then PassedOver(cfg, Iterate(cfg, st, worlds[0]).state, worlds[1..], m) else 0
  }

  /** The run ends in this stretch, showing `m` as its reason. */
  predicate EndsRun(cfg: Config, st: State, worlds: seq<World>, m: Message)
    decreases |worlds|
  {
    worlds != [] &&
    if Iterate(cfg, st, worlds[0]).Continue? then EndsRun(cfg, Iterate(cfg, st, worlds[0]).state, worlds[1..], m)
    else Surfaces(cfg, st, worlds[0], m)
  }

  predicate AllDiscreet(worlds: seq<World>) { forall i :: 0 <= i < |worlds| ==> Discreet(worlds[i]) }

  /** Over a whole run an assistant message is shown as often as compactions kept it and the model sent
      it unwithheld, and once more if it ended the run. */
  lemma {:induction false} RunShows(cfg: Config, st: State, worlds: seq<World>, m: Message)
    requires m.Assistant? && AllDiscreet(worlds)
    ensures Shows(Loop(cfg, st, worlds).shown, m)
            == KeptOver(cfg, st, worlds, m) + PassedOver(cfg, st, worlds, m) + One(EndsRun(cfg, st, worlds, m))
    decreases |worlds|
  {
    hide Shows, Iterate, Discreet, Kept, StreamedIn, Withheld;
    if worlds == [] {
      ShowsNothing([], m);
    } else {
      var o := Iterate(cfg, st, worlds[0]);
      IterationShows(cfg, st, worlds[0], m);
      if o.Continue? {
        RunShows(cfg, o.state, worlds[1..], m);
        ShowsConcat(o.shown, Loop(cfg, o.state, worlds[1..]).shown, m);
      }
    }
  }

  /** Withheld throughout: apart from what compactions kept, the error is shown exactly once if the run ended
      on it and not at all if not, however many iterations ended with it and were retried. */
  lemma WithheldShownOnlyAtTheEnd(cfg: Config, st: State, worlds: seq<World>, m: Message)
    requires AllDiscreet(worlds) && m.Assistant?
    requires forall i :: 0 <= i < |worlds| ==> Withheld(cfg, worlds[i], m)
    ensures Shows(Loop(cfg, st, worlds).shown, m)
            == KeptOver(cfg, st, worlds, m) + if EndsRun(cfg, st, worlds, m) then 1 else 0
  {
    hide Withheld, Shows, KeptOver, EndsRun;
    RunShows(cfg, st, worlds, m);
    WithheldPassesNothing(cfg, st, worlds, m);
  }

  lemma {:induction false} WithheldPassesNothing(cfg: Config, st: State, worlds: seq<World>, m: Message)
    requires forall i :: 0 <= i < |worlds| ==> Withheld(cfg, worlds[i], m)
    ensures PassedOver(cfg, st, worlds, m) == 0
    decreases |worlds|
  {
    hide Iterate, Withheld;
    if worlds != [] && Iterate(cfg, st, worlds[0]).Continue? {
      WithheldPassesNothing(cfg, Iterate(cfg, st, worlds[0]).state, worlds[1..], m);
    }
  }
}
