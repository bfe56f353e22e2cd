/** The agent query loop: compact if needed, stream a model response, recover from
    its errors, run its tools, and go round again. The model, the tools, the
    hooks and the compaction services are inputs, one `World` per iteration. */
module QueryLoop {
  import opened Prelude

  type ToolId = string
  type Body = nat  // whatever else a message says; no branch looks at it

  datatype ErrorKind = MaxOutputTokens | PromptTooLong | MediaSize | OtherError

  datatype Message =
    | Assistant(body: Body, toolUses: seq<ToolId>, error: Option<ErrorKind>)
    | User(body: Body, toolResults: seq<ToolId>)
    | Attachment(body: Body, stops: bool)  // `stops`: a hook asked not to continue
    | System(body: Body, boundary: bool)   // `boundary`: a compact boundary

  datatype Yield = RequestStart | StreamEvent(body: Body) | Out(message: Message) | Tombstone(message: Message)

  datatype StreamItem = FallbackSignal | Event(body: Body) | Streamed(message: Message)

  datatype End = Finished | Threw(image: bool)

  datatype Compaction = Compaction(messages: seq<Message>, contextTokens: nat)

  /** What the outside does during one iteration. */
  datatype World = World(
    edits: map<nat, Body>,              // tool-result budget and microcompact: contents replaced in place
    compaction: Option<Compaction>,     // proactive compaction
    blocked: bool,                      // at the hard token limit with no automatic compaction
    fallbacks: seq<seq<StreamItem>>,    // attempts that ended by switching to the fallback model
    items: seq<StreamItem>,             // the last attempt
    end: End,
    mediaRecovery: bool,
    aborted: bool,                      // when the stream has ended
    submitInterrupt: bool,              // the abort came from a queued user message
    reactive: Option<Compaction>,       // reactive compaction's answer
    capEnabled: bool,                   // escalation of the output cap is enabled
    hookMessages: seq<Message>,         // what stop hooks show
    hookPrevents: bool,
    hookErrors: seq<Message>,           // blocking errors of stop hooks
    budgetContinues: bool,              // the token budget asks for more
    toolMessages: seq<Message>,         // what running the tools yields
    abortedTools: bool,
    attachments: seq<Message>)

  datatype Config = Config(
    reactive: bool,          // the reactive-compaction module is present
    withholdsTooLong: bool,  // and its withholding test recognises prompt-too-long errors
    maxTurns: nat,           // 0: unlimited
    taskBudget: Option<nat>)

  datatype Transition =
    | NextTurn | ReactiveCompactRetry | Escalate | Recovery(attempt: nat) | StopHookBlocking | TokenBudgetContinuation

  datatype Reason =
    | BlockingLimit | ImageError | ModelError | AbortedStreaming | TooLong | Completed | StopHookPrevented
    | AbortedTools | HookStopped | MaxTurns(turnCount: nat)

  datatype State = State(
    messages: seq<Message>,
    recoveryCount: nat,
    attemptedCompact: bool,
    override: Option<nat>,
    stopHookActive: bool,
    turnCount: nat,
    budgetLeft: Option<nat>,
    transition: Option<Transition>)

  const RECOVERY_LIMIT: nat := 3
  const ESCALATED_MAX_TOKENS: nat := 64000

  // Contents of the messages the loop itself makes.
  const MODEL_FALLBACK: Body := 1
  const INTERRUPTED: Body := 2
  const MODEL_FAILED: Body := 3
  const INTERRUPTION: Body := 4
  const RESUME: Body := 5
  const NUDGE: Body := 6
  const MAX_TURNS_REACHED: Body := 7
  const SWITCHED_MODEL: Body := 8
  const TOO_LONG: Body := 9

  function Start(messages: seq<Message>, override: Option<nat>): State {
    State(messages, 0, false, override, false, 1, None, None)
  }

  // ---- Preparing the request ----

  function LastBoundaryIndex(messages: seq<Message>): (i: int)
    ensures -1 <= i < |messages|
  {
    if messages == [] then -1
    else
      var last := |messages| - 1;
      if messages[last].System? && messages[last].boundary then last else LastBoundaryIndex(messages[..last])
  }

  /** The messages from the last compact boundary on. */
  function AfterBoundary(messages: seq<Message>): seq<Message> {
    var i := LastBoundaryIndex(messages);
    if i == -1 then messages else messages[i..]
  }

  function Rewrite(messages: seq<Message>, edits: map<nat, Body>): (r: seq<Message>)
    ensures |r| == |messages|
  {
    seq(|messages|, i requires 0 <= i < |messages| => if i in edits then messages[i].(body := edits[i]) else messages[i])
  }

  /** `messagesForQuery` when the model is called. */
  function Request(st: State, w: World): seq<Message> {
    match w.compaction
    case Some(c) => c.messages
    case None => Rewrite(AfterBoundary(st.messages), w.edits)
  }

  function Spend(cfg: Config, left: Option<nat>, contextTokens: nat): Option<nat> {
    match cfg.taskBudget
    case None => left
    case Some(total) =>
      var before := if left.Some? then left.value else total;
      Some(if before >= contextTokens then before - contextTokens else 0)
  }

  function Outs(messages: seq<Message>): (ys: seq<Yield>)
    ensures |ys| == |messages|
  {
    seq(|messages|, i requires 0 <= i < |messages| => Out(messages[i]))
  }

  function Tombstones(messages: seq<Message>): (ys: seq<Yield>)
    ensures |ys| == |messages|
  {
    seq(|messages|, i requires 0 <= i < |messages| => Tombstone(messages[i]))
  }

  // ---- Streaming ----

  datatype Stream = Stream(assistants: seq<Message>, toolBlocks: seq<ToolId>, needsFollowUp: bool, fellBack: bool, shown: seq<Yield>)

  predicate Withheld(cfg: Config, w: World, m: Message) {
    m.Assistant? && m.error.Some? &&
    match m.error.value
    case MaxOutputTokens => true
    case PromptTooLong => cfg.reactive && cfg.withholdsTooLong
    case MediaSize => cfg.reactive && w.mediaRecovery
    case OtherError => false
  }

  /** Once the stream has fallen back, everything received so far is an orphan
      whenever anything more arrives. */
  function DropOrphans(s: Stream): Stream {
    if !s.fellBack then s
    else s.(assistants := [], toolBlocks := [], needsFollowUp := false, shown := s.shown + Tombstones(s.assistants))
  }

  function Consume(cfg: Config, w: World, s: Stream, item: StreamItem): Stream {
    match item
    case FallbackSignal => s.(fellBack := true)
    case Event(b) => var d := DropOrphans(s); d.(shown := d.shown + [StreamEvent(b)])
    case Streamed(m) =>
      var d := DropOrphans(s);
      var visible := d.(shown := d.shown + if Withheld(cfg, w, m) then [] else [Out(m)]);
      if m.Assistant? then
        visible.(assistants := d.assistants + [m], toolBlocks := d.toolBlocks + m.toolUses,
               needsFollowUp := d.needsFollowUp || m.toolUses != [])
      else visible
  }

  function ConsumeAll(cfg: Config, w: World, s: Stream, items: seq<StreamItem>): Stream {
    if items == [] then s
    else Consume(cfg, w, ConsumeAll(cfg, w, s, items[..|items| - 1]), items[|items| - 1])
  }

  function ResultFor(id: ToolId, why: Body): Yield { Out(User(why, [id])) }

  function Answers(ids: seq<ToolId>, why: Body): (ys: seq<Yield>)
    ensures |ys| == |ids|
  {
    seq(|ids|, i requires 0 <= i < |ids| => ResultFor(ids[i], why))
  }

  /** One synthetic result for every tool use of the given assistant messages. */
  function MissingResults(assistants: seq<Message>, why: Body): seq<Yield> {
    if assistants == [] then []
    else
      var last := assistants[|assistants| - 1];
      MissingResults(assistants[..|assistants| - 1], why) + if last.Assistant? then Answers(last.toolUses, why) else []
  }

  function Fresh(shown: seq<Yield>): Stream { Stream([], [], false, false, shown) }

  /** What has been yielded after the first `k` attempts, all of which switched models. */
  function AfterFallbacks(cfg: Config, w: World, k: nat, shown: seq<Yield>): seq<Yield>
    requires k <= |w.fallbacks|
  {
    if k == 0 then shown
    else
      var s := ConsumeAll(cfg, w, Fresh(AfterFallbacks(cfg, w, k - 1, shown)), w.fallbacks[k - 1]);
      s.shown + MissingResults(s.assistants, MODEL_FALLBACK) + [Out(System(SWITCHED_MODEL, false))]
  }

  function Response(cfg: Config, w: World, shown: seq<Yield>): Stream {
    ConsumeAll(cfg, w, Fresh(AfterFallbacks(cfg, w, |w.fallbacks|, shown)), w.items)
  }

  // ---- One iteration ----

  datatype Outcome = Continue(state: State, shown: seq<Yield>) | Stop(reason: Reason, shown: seq<Yield>)

  function Prefixed(before: seq<Yield>, o: Outcome): Outcome {
    match o
    case Continue(st, ys) => Continue(st, before + ys)
    case Stop(r, ys) => Stop(r, before + ys)
  }

  function LastError(assistants: seq<Message>): Option<ErrorKind> {
    if assistants == [] || !assistants[|assistants| - 1].Assistant? then None else assistants[|assistants| - 1].error
  }

  function ApiError(b: Body, kind: ErrorKind): Yield { Out(Assistant(b, [], Some(kind))) }

  /** What the loop keeps of a tool update: user messages, and attachments turned into user messages. */
  function Normalized(messages: seq<Message>): seq<Message> {
    if messages == [] then []
    else
      var m := messages[|messages| - 1];
      Normalized(messages[..|messages| - 1]) +
      match m
      case User(_, _) => [m]
      case Attachment(b, _) => [User(b, [])]
      case _ => []
  }

  predicate NoAssistants(messages: seq<Message>) { forall i :: 0 <= i < |messages| ==> !messages[i].Assistant? }

  predicate Halts(messages: seq<Message>) {
    exists m :: m in messages && m.Attachment? && m.stops
  }

  /** The stream ended without a tool use: recover, give up, or finish. */
  function Conclude(cfg: Config, st: State, w: World, request: seq<Message>, s: Stream, left: Option<nat>): Outcome {
    var last := LastError(s.assistants);
    var again := st.(stopHookActive := false, budgetLeft := left);
    if cfg.reactive && (last == Some(PromptTooLong) || (last == Some(MediaSize) && w.mediaRecovery)) then
      match w.reactive
      case Some(c) =>
        Continue(again.(messages := c.messages, attemptedCompact := true, override := None,
                        budgetLeft := Spend(cfg, left, c.contextTokens), transition := Some(ReactiveCompactRetry)),
                 Outs(c.messages))
      case None =>
        Stop(if last == Some(MediaSize) then ImageError else TooLong, [Out(s.assistants[|s.assistants| - 1])])
    else if last == Some(MaxOutputTokens) && w.capEnabled && st.override.None? then
      Continue(again.(messages := request, override := Some(ESCALATED_MAX_TOKENS), transition := Some(Escalate)), [])
    else if last == Some(MaxOutputTokens) && st.recoveryCount < RECOVERY_LIMIT then
      Continue(again.(messages := request + s.assistants + [User(RESUME, [])], recoveryCount := st.recoveryCount + 1,
                      override := None, transition := Some(Recovery(st.recoveryCount + 1))), [])
    else if last == Some(MaxOutputTokens) then
      Stop(Completed, [Out(s.assistants[|s.assistants| - 1])])
    else if last.Some? then Stop(Completed, [])
    else if w.hookPrevents then Stop(StopHookPrevented, Outs(w.hookMessages))
    else if w.hookErrors != [] then
      Continue(again.(messages := request + s.assistants + w.hookErrors, recoveryCount := 0, override := None,
                      stopHookActive := true, transition := Some(StopHookBlocking)), Outs(w.hookMessages))
    else if w.budgetContinues then
      Continue(again.(messages := request + s.assistants + [User(NUDGE, [])], recoveryCount := 0, attemptedCompact := false,
                      override := None, transition := Some(TokenBudgetContinuation)), Outs(w.hookMessages))
    else Stop(Completed, Outs(w.hookMessages))
  }

  /** Run the tools of the response and hand their results to the next turn. */
  function UseTools(cfg: Config, st: State, w: World, request: seq<Message>, s: Stream, left: Option<nat>): Outcome {
    var ran := Outs(w.toolMessages);
    var next := st.turnCount + 1;
    var over := cfg.maxTurns != 0 && next > cfg.maxTurns;
    var notice := if over then [Out(Attachment(MAX_TURNS_REACHED, false))] else [];
    if w.abortedTools then
      Stop(AbortedTools, ran + (if w.submitInterrupt then [] else [Out(User(INTERRUPTION, []))]) + notice)
    else if Halts(w.toolMessages) then Stop(HookStopped, ran)
    else if over then Stop(MaxTurns(next), ran + Outs(w.attachments) + notice)
    else
      Continue(st.(messages := request + s.assistants + (Normalized(w.toolMessages) + w.attachments), turnCount := next,
                   recoveryCount := 0, attemptedCompact := false, override := None, budgetLeft := left,
                   transition := Some(NextTurn)),
               ran + Outs(w.attachments))
  }

  function AfterStream(cfg: Config, st: State, w: World, request: seq<Message>, s: Stream, left: Option<nat>): Outcome {
    if w.end.Threw? then
      if w.end.image then Stop(ImageError, [ApiError(MODEL_FAILED, OtherError)])
      else Stop(ModelError, MissingResults(s.assistants, MODEL_FAILED) + [ApiError(MODEL_FAILED, OtherError)])
    else if w.aborted then
      Stop(AbortedStreaming, MissingResults(s.assistants, INTERRUPTED)
                             + if w.submitInterrupt then [] else [Out(User(INTERRUPTION, []))])
    else if !s.needsFollowUp then Conclude(cfg, st, w, request, s, left)
    else UseTools(cfg, st, w, request, s, left)
  }

  function BudgetAfterCompaction(cfg: Config, st: State, w: World): Option<nat> {
    if w.compaction.Some? then Spend(cfg, st.budgetLeft, w.compaction.value.contextTokens) else st.budgetLeft
  }

  function Opening(w: World): seq<Yield> {
    [RequestStart] + if w.compaction.Some? then Outs(w.compaction.value.messages) else []
  }

  function Iterate(cfg: Config, st: State, w: World): Outcome {
    if w.compaction.None? && w.blocked then Stop(BlockingLimit, Opening(w) + [ApiError(TOO_LONG, PromptTooLong)])
    else
      var s := Response(cfg, w, Opening(w));
      Prefixed(s.shown, AfterStream(cfg, st, w, Request(st, w), s, BudgetAfterCompaction(cfg, st, w)))
  }

  // ---- Runs ----

  datatype Result = Result(state: State, shown: seq<Yield>, reason: Option<Reason>)

  /** The loop over a finite stretch of the outside's behaviour; no reason means it would go on. */
  function Loop(cfg: Config, st: State, worlds: seq<World>): Result
    decreases |worlds|
  {
    if worlds == [] then Result(st, [], None)
    else
      match Iterate(cfg, st, worlds[0])
      case Stop(r, ys) => Result(st, ys, Some(r))
      case Continue(next, ys) =>
        var rest := Loop(cfg, next, worlds[1..]);
        rest.(shown := ys + rest.shown)
  }

  /** The loop in its own form. */
  class QueryRun {
    const cfg: Config
    var state: State
    var yielded: seq<Yield>

    constructor (cfg: Config, messages: seq<Message>, override: Option<nat>)
      ensures this.cfg == cfg && state == Start(messages, override) && yielded == []
    {
      this.cfg := cfg;
      state := State(messages, 0, false, override, false, 1, None, None);
      yielded := [];
    }

    method YieldAll(messages: seq<Message>)
      modifies this`yielded
      ensures yielded == old(yielded) + Outs(messages)
    {
      for i := 0 to |messages|
        invariant yielded == old(yielded) + Outs(messages[..i])
      {
        yielded := yielded + [Out(messages[i])];
        assert Outs(messages[..i + 1]) == Outs(messages[..i]) + [Out(messages[i])];
      }
      assert messages[..|messages|] == messages;
    }

    method YieldMissingToolResultBlocks(assistants: seq<Message>, why: Body)
      modifies this`yielded
      ensures yielded == old(yielded) + MissingResults(assistants, why)
    {
      for i := 0 to |assistants|
        invariant yielded == old(yielded) + MissingResults(assistants[..i], why)
      {
        assert assistants[..i + 1][..i] == assistants[..i];
        var ids := if assistants[i].Assistant? then assistants[i].toolUses else [];
        for j := 0 to |ids|
          invariant yielded == old(yielded) + MissingResults(assistants[..i], why) + Answers(ids[..j], why)
        {
          yielded := yielded + [Out(User(why, [ids[j]]))];
          assert Answers(ids[..j + 1], why) == Answers(ids[..j], why) + [ResultFor(ids[j], why)];
        }
        assert ids[..|ids|] == ids;
      }
      assert assistants[..|assistants|] == assistants;
    }

    /** Consume one attempt's stream. */
    method StreamAttempt(w: World, items: seq<StreamItem>)
      returns (assistants: seq<Message>, toolBlocks: seq<ToolId>, needsFollowUp: bool)
      modifies this`yielded
      ensures var s := ConsumeAll(cfg, w, Fresh(old(yielded)), items);
              yielded == s.shown && assistants == s.assistants && toolBlocks == s.toolBlocks && needsFollowUp == s.needsFollowUp
    {
      assistants, toolBlocks, needsFollowUp := [], [], false;
      var streamingFallbackOccurred := false;
      for i := 0 to |items|
        invariant ConsumeAll(cfg, w, Fresh(old(yielded)), items[..i])
                  == Stream(assistants, toolBlocks, needsFollowUp, streamingFallbackOccurred, yielded)
      {
        assert items[..i + 1][..i] == items[..i];
        var item := items[i];
        if item.FallbackSignal? {
          streamingFallbackOccurred := true;
          continue;
        }
        if streamingFallbackOccurred {
          ghost var before := yielded;
          for j := 0 to |assistants|
            invariant yielded == before + Tombstones(assistants[..j])
          {
            yielded := yielded + [Tombstone(assistants[j])];
            assert Tombstones(assistants[..j + 1]) == Tombstones(assistants[..j]) + [Tombstone(assistants[j])];
          }
          assert assistants[..|assistants|] == assistants;
          assistants, toolBlocks, needsFollowUp := [], [], false;
        }
        if item.Event? {
          yielded := yielded + [StreamEvent(item.body)];
          continue;
        }
        var message := item.message;
        var withheld := false;
        if message.Assistant? && message.error == Some(PromptTooLong) && cfg.reactive && cfg.withholdsTooLong {
          withheld := true;
        }
        if message.Assistant? && message.error == Some(MediaSize) && cfg.reactive && w.mediaRecovery {
          withheld := true;
        }
        if message.Assistant? && message.error == Some(MaxOutputTokens) {
          withheld := true;
        }
        if !withheld {
          yielded := yielded + [Out(message)];
        }
        if message.Assistant? {
          assistants := assistants + [message];
          if |message.toolUses| > 0 {
            toolBlocks := toolBlocks + message.toolUses;
            needsFollowUp := true;
          }
        }
      }
      assert items[..|items|] == items;
    }

    /** One pass through the body of the loop; `stop` is the terminal reason, if any. */
    method Iteration(w: World) returns (stop: Option<Reason>)
      modifies this
      ensures match Iterate(cfg, old(state), w)
              case Continue(next, ys) => stop == None && state == next && yielded == old(yielded) + ys
              case Stop(r, ys) => stop == Some(r) && state == old(state) && yielded == old(yielded) + ys
    {
      hide Response, AfterStream, Rewrite, AfterBoundary;
      ghost var y0 := yielded;
      yielded := yielded + [RequestStart];
      var messagesForQuery := Rewrite(AfterBoundary(state.messages), w.edits);
      var budget := state.budgetLeft;
      if w.compaction.Some? {
        budget := Spend(cfg, budget, w.compaction.value.contextTokens);
        YieldAll(w.compaction.value.messages);
        messagesForQuery := w.compaction.value.messages;
      }
      assert yielded == y0 + Opening(w);
      if w.compaction.None? && w.blocked {
        yielded := yielded + [ApiError(TOO_LONG, PromptTooLong)];
        return Some(BlockingLimit);
      }

      var assistants, needsFollowUp := Respond(w);
      ghost var s := Response(cfg, w, Opening(w));
      ResponsePrefix(cfg, w, y0, Opening(w));
      assert yielded == y0 + s.shown && assistants == s.assistants && needsFollowUp == s.needsFollowUp;
      assert messagesForQuery == Request(state, w) && budget == BudgetAfterCompaction(cfg, state, w);
      stop := Decide(w, messagesForQuery, s, assistants, needsFollowUp, budget);
    }

    /** The attempts at a response, each failed one followed by a switch of model. */
    method Respond(w: World) returns (assistants: seq<Message>, needsFollowUp: bool)
      modifies this`yielded
      ensures var s := Response(cfg, w, old(yielded));
              yielded == s.shown && assistants == s.assistants && needsFollowUp == s.needsFollowUp
    {
      var toolBlocks;
      for k := 0 to |w.fallbacks|
        invariant yielded == AfterFallbacks(cfg, w, k, old(yielded))
      {
        assistants, toolBlocks, needsFollowUp := StreamAttempt(w, w.fallbacks[k]);
        YieldMissingToolResultBlocks(assistants, MODEL_FALLBACK);
        yielded := yielded + [Out(System(SWITCHED_MODEL, false))];
      }
      assistants, toolBlocks, needsFollowUp := StreamAttempt(w, w.items);
    }

    /** What the loop does once the stream is over. */
    method Decide(w: World, messagesForQuery: seq<Message>, ghost s: Stream, assistants: seq<Message>,
                  needsFollowUp: bool, budget: Option<nat>)
      returns (stop: Option<Reason>)
      requires s.assistants == assistants && s.needsFollowUp == needsFollowUp
      modifies this
      ensures match AfterStream(cfg, old(state), w, messagesForQuery, s, budget)
              case Continue(next, ys) => stop == None && state == next && yielded == old(yielded) + ys
              case Stop(r, ys) => stop == Some(r) && state == old(state) && yielded == old(yielded) + ys
    {
      if w.end.Threw? {
        if w.end.image {
          yielded := yielded + [ApiError(MODEL_FAILED, OtherError)];
          return Some(ImageError);
        }
        YieldMissingToolResultBlocks(assistants, MODEL_FAILED);
        yielded := yielded + [ApiError(MODEL_FAILED, OtherError)];
        return Some(ModelError);
      }
      if w.aborted {
        YieldMissingToolResultBlocks(assistants, INTERRUPTED);
        if !w.submitInterrupt {
          yielded := yielded + [Out(User(INTERRUPTION, []))];
        }
        return Some(AbortedStreaming);
      }
      if !needsFollowUp {
        stop := FinishTurn(w, messagesForQuery, s, assistants, budget);
      } else {
        stop := ExecuteTools(w, messagesForQuery, s, assistants, budget);
      }
    }

    method FinishTurn(w: World, messagesForQuery: seq<Message>, ghost s: Stream, assistants: seq<Message>, budget: Option<nat>)
      returns (stop: Option<Reason>)
      requires s.assistants == assistants
      modifies this
      ensures match Conclude(cfg, old(state), w, messagesForQuery, s, budget)
              case Continue(next, ys) => stop == None && state == next && yielded == old(yielded) + ys
              case Stop(r, ys) => stop == Some(r) && state == old(state) && yielded == old(yielded) + ys
    {
      var last := LastError(assistants);
      var isWithheld413 := last == Some(PromptTooLong);
      var isWithheldMedia := w.mediaRecovery && cfg.reactive && last == Some(MediaSize);
      if (isWithheld413 || isWithheldMedia) && cfg.reactive {
        if w.reactive.Some? {
          var c := w.reactive.value;
          var left := Spend(cfg, budget, c.contextTokens);
          YieldAll(c.messages);
          state := State(c.messages, state.recoveryCount, true, None, false, state.turnCount, left, Some(ReactiveCompactRetry));
          return None;
        }
        yielded := yielded + [Out(assistants[|assistants| - 1])];
        return Some(if isWithheldMedia then ImageError else TooLong);
      }
      if last == Some(MaxOutputTokens) {
        if w.capEnabled && state.override.None? {
          state := State(messagesForQuery, state.recoveryCount, state.attemptedCompact, Some(ESCALATED_MAX_TOKENS), false,
                         state.turnCount, budget, Some(Escalate));
          return None;
        }
        if state.recoveryCount < RECOVERY_LIMIT {
          state := State(messagesForQuery + assistants + [User(RESUME, [])], state.recoveryCount + 1, state.attemptedCompact,
                         None, false, state.turnCount, budget, Some(Recovery(state.recoveryCount + 1)));
          return None;
        }
        yielded := yielded + [Out(assistants[|assistants| - 1])];
      }
      if last.Some? {
        return Some(Completed);
      }
      YieldAll(w.hookMessages);
      if w.hookPrevents {
        return Some(StopHookPrevented);
      }
      if |w.hookErrors| > 0 {
        state := State(messagesForQuery + assistants + w.hookErrors, 0, state.attemptedCompact, None, true,
                       state.turnCount, budget, Some(StopHookBlocking));
        return None;
      }
      if w.budgetContinues {
        state := State(messagesForQuery + assistants + [User(NUDGE, [])], 0, false, None, false,
                       state.turnCount, budget, Some(TokenBudgetContinuation));
        return None;
      }
      return Some(Completed);
    }

    method CollectToolResults(w: World) returns (toolResults: seq<Message>, shouldPreventContinuation: bool)
      modifies this`yielded
      ensures yielded == old(yielded) + Outs(w.toolMessages)
      ensures toolResults == Normalized(w.toolMessages) && (shouldPreventContinuation <==> Halts(w.toolMessages))
    {
      shouldPreventContinuation, toolResults := false, [];
      for i := 0 to |w.toolMessages|
        invariant yielded == old(yielded) + Outs(w.toolMessages[..i])
        invariant toolResults == Normalized(w.toolMessages[..i])
        invariant shouldPreventContinuation <==> Halts(w.toolMessages[..i])
      {
        var m := w.toolMessages[i];
        assert w.toolMessages[..i + 1] == w.toolMessages[..i] + [m];
        yielded := yielded + [Out(m)];
        assert Outs(w.toolMessages[..i + 1]) == Outs(w.toolMessages[..i]) + [Out(m)];
        if m.Attachment? && m.stops {
          shouldPreventContinuation := true;
        }
        match m {
          case User(_, _) => toolResults := toolResults + [m];
          case Attachment(b, _) => toolResults := toolResults + [User(b, [])];
          case _ =>
        }
      }
      assert w.toolMessages[..|w.toolMessages|] == w.toolMessages;
    }

    method ExecuteTools(w: World, messagesForQuery: seq<Message>, ghost s: Stream, assistants: seq<Message>, budget: Option<nat>)
      returns (stop: Option<Reason>)
      requires s.assistants == assistants
      modifies this
      ensures match UseTools(cfg, old(state), w, messagesForQuery, s, budget)
              case Continue(next, ys) => stop == None && state == next && yielded == old(yielded) + ys
              case Stop(r, ys) => stop == Some(r) && state == old(state) && yielded == old(yielded) + ys
    {
      hide Normalized, Halts, Outs;
      var toolResults, shouldPreventContinuation := CollectToolResults(w);
      var nextTurnCount := state.turnCount + 1;
      if w.abortedTools {
        if !w.submitInterrupt {
          yielded := yielded + [Out(User(INTERRUPTION, []))];
        }
        if cfg.maxTurns != 0 && nextTurnCount > cfg.maxTurns {
          yielded := yielded + [Out(Attachment(MAX_TURNS_REACHED, false))];
        }
        return Some(AbortedTools);
      }
      if shouldPreventContinuation {
        return Some(HookStopped);
      }
      YieldAll(w.attachments);
      toolResults := toolResults + w.attachments;
      if cfg.maxTurns != 0 && nextTurnCount > cfg.maxTurns {
        yielded := yielded + [Out(Attachment(MAX_TURNS_REACHED, false))];
        return Some(MaxTurns(nextTurnCount));
      }
      state := State(messagesForQuery + assistants + toolResults, 0, false, None, state.stopHookActive, nextTurnCount,
                     budget, Some(NextTurn));
      return None;
    }

    /** `while (true)`, for as long as the outside is described. */
    method Run(worlds: seq<World>) returns (reason: Option<Reason>)
      modifies this
      ensures var full := Loop(cfg, old(state), worlds);
              state == full.state && reason == full.reason && yielded == old(yielded) + full.shown
    {
      ghost var full := Loop(cfg, state, worlds);
      reason := None;
      var i := 0;
      while i < |worlds|
        invariant 0 <= i <= |worlds| && reason == None
        invariant Rejoins(full, old(yielded), yielded, Loop(cfg, state, worlds[i..]))
      {
        assert worlds[i..][0] == worlds[i] && worlds[i..][1..] == worlds[i + 1..];
        ghost var st, shown := state, yielded;
        reason := Iteration(worlds[i]);
        LoopUnfolds(cfg, st, worlds[i..]);
        if reason.Some? {
          return;
        }
        RejoinsLater(full, old(yielded), shown, Iterate(cfg, st, worlds[i]).shown, Loop(cfg, state, worlds[i + 1..]));
        i := i + 1;
      }
    }
  }

  /** What is yielded so far and the rest of the loop make up the whole. */
  ghost predicate Rejoins(full: Result, before: seq<Yield>, now: seq<Yield>, rest: Result) {
    rest.state == full.state && rest.reason == full.reason && now + rest.shown == before + full.shown
  }

  lemma LoopUnfolds(cfg: Config, st: State, worlds: seq<World>)
    requires worlds != []
    ensures var o := Iterate(cfg, st, worlds[0]);
            o.Stop? ==> Loop(cfg, st, worlds) == Result(st, o.shown, Some(o.reason))
    ensures var o := Iterate(cfg, st, worlds[0]);
            o.Continue? ==> var rest := Loop(cfg, o.state, worlds[1..]); Loop(cfg, st, worlds) == rest.(shown := o.shown + rest.shown)
  {
  }

  lemma RejoinsLater(full: Result, before: seq<Yield>, now: seq<Yield>, more: seq<Yield>, rest: Result)
    requires Rejoins(full, before, now, rest.(shown := more + rest.shown))
    ensures Rejoins(full, before, now + more, rest)
  {
    assert (now + more) + rest.shown == now + (more + rest.shown);
  }

  // ---- Streams only append to what was yielded before ----

  lemma ConsumeOnePrefix(cfg: Config, w: World, before: seq<Yield>, s: Stream, item: StreamItem)
    ensures Consume(cfg, w, s.(shown := before + s.shown), item)
            == Consume(cfg, w, s, item).(shown := before + Consume(cfg, w, s, item).shown)
  {
    var d := DropOrphans(s);
    assert (before + s.shown) + Tombstones(s.assistants) == before + (s.shown + Tombstones(s.assistants));
    assert DropOrphans(s.(shown := before + s.shown)) == d.(shown := before + d.shown);
    if item.Event? {
      assert (before + d.shown) + [StreamEvent(item.body)] == before + (d.shown + [StreamEvent(item.body)]);
    } else if item.Streamed? {
      var out := if Withheld(cfg, w, item.message) then [] else [Out(item.message)];
      assert (before + d.shown) + out == before + (d.shown + out);
    }
  }

  lemma {:induction false} ConsumePrefix(cfg: Config, w: World, before: seq<Yield>, s: Stream, items: seq<StreamItem>)
    ensures ConsumeAll(cfg, w, s.(shown := before + s.shown), items)
            == ConsumeAll(cfg, w, s, items).(shown := before + ConsumeAll(cfg, w, s, items).shown)
    decreases |items|
  {
    if items != [] {
      var init := items[..|items| - 1];
      ConsumePrefix(cfg, w, before, s, init);
      ConsumeOnePrefix(cfg, w, before, ConsumeAll(cfg, w, s, init), items[|items| - 1]);
    }
  }

  lemma {:induction false} FallbacksPrefix(cfg: Config, w: World, k: nat, before: seq<Yield>, shown: seq<Yield>)
    requires k <= |w.fallbacks|
    ensures AfterFallbacks(cfg, w, k, before + shown) == before + AfterFallbacks(cfg, w, k, shown)
  {
    if k > 0 {
      FallbacksPrefix(cfg, w, k - 1, before, shown);
      ConsumePrefix(cfg, w, before, Fresh(AfterFallbacks(cfg, w, k - 1, shown)), w.fallbacks[k - 1]);
    }
  }

  lemma ResponsePrefix(cfg: Config, w: World, before: seq<Yield>, shown: seq<Yield>)
    ensures Response(cfg, w, before + shown) == Response(cfg, w, shown).(shown := before + Response(cfg, w, shown).shown)
  {
    FallbacksPrefix(cfg, w, |w.fallbacks|, before, shown);
    ConsumePrefix(cfg, w, before, Fresh(AfterFallbacks(cfg, w, |w.fallbacks|, shown)), w.items);
  }
}
