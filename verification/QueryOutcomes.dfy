/** How iterations and runs of the query loop end, told from what the model, the
    hooks and the tools did. */
module QueryOutcomes {
  import opened Prelude
  import opened QueryLoop
  import opened QueryRecovery
  import opened QueryStream

  // ---- What happened in an iteration ----

  datatype Situation =
    | Refused                           // at the hard limit, the model is not asked
    | BrokenOff(image: bool)            // the stream threw
    | Interrupted                       // the user aborted while it streamed
    | Answered(error: Option<ErrorKind>) // no tool use; the error of the last message, if it is one
    | CallsTools

  function LastErrorOf(assistants: seq<Message>): Option<ErrorKind> {
    if assistants != [] && assistants[|assistants| - 1].Assistant? then assistants[|assistants| - 1].error else None
  }

  function SituationOf(w: World): Situation {
    if w.blocked && w.compaction.None? then Refused
    else if w.end.Threw? then BrokenOff(w.end.image)
    else if w.aborted then Interrupted
    else if UsesTools(Surviving(w.items)) then CallsTools
    else Answered(LastErrorOf(Surviving(w.items)))
  }

  predicate Clean(w: World) { SituationOf(w) == Answered(None) }

  /** Errors that reactive compaction is asked about. */
  predicate Compactable(cfg: Config, w: World, kind: ErrorKind) {
    cfg.reactive && (kind == PromptTooLong || (kind == MediaSize && w.mediaRecovery))
  }

  /** A tool update that asks not to go on. */
  predicate HookStops(w: World) { exists i :: 0 <= i < |w.toolMessages| && w.toolMessages[i].Attachment? && w.toolMessages[i].stops }

  predicate PastLimit(cfg: Config, turns: nat) { cfg.maxTurns > 0 && turns > cfg.maxTurns }

  // ---- When an iteration ends the run ----

  /** The run ends with this iteration for this reason. */
  predicate Ends(cfg: Config, st: State, w: World, r: Reason) {
    var now := SituationOf(w);
    match r
    case BlockingLimit => now == Refused
    case ModelError => now == BrokenOff(false)
    case AbortedStreaming => now == Interrupted
    case TooLong => now == Answered(Some(PromptTooLong)) && cfg.reactive && w.reactive.None?
    case ImageError =>
      now == BrokenOff(true) || (now == Answered(Some(MediaSize)) && cfg.reactive && w.mediaRecovery && w.reactive.None?)
    case Completed =>
      || (now == Answered(None) && !w.hookPrevents && w.hookErrors == [] && !w.budgetContinues)
      || (now == Answered(Some(MaxOutputTokens)) && st.recoveryCount >= 3 && !(w.capEnabled && st.override == None))
      || (now.Answered? && now.error.Some? && now.error.value != MaxOutputTokens && !Compactable(cfg, w, now.error.value))
    case StopHookPrevented => now == Answered(None) && w.hookPrevents
    case AbortedTools => now == CallsTools && w.abortedTools
    case HookStopped => now == CallsTools && !w.abortedTools && HookStops(w)
    case MaxTurns(n) =>
      now == CallsTools && !w.abortedTools && !HookStops(w) && n == st.turnCount + 1 && PastLimit(cfg, n)
  }

  /** What the next iteration is to do. */
  predicate LeadsTo(cfg: Config, st: State, w: World, t: Transition) {
    var now := SituationOf(w);
    match t
    case NextTurn => now == CallsTools && !w.abortedTools && !HookStops(w) && !PastLimit(cfg, st.turnCount + 1)
    case StopHookBlocking => now == Answered(None) && !w.hookPrevents && w.hookErrors != []
    case TokenBudgetContinuation => now == Answered(None) && !w.hookPrevents && w.hookErrors == [] && w.budgetContinues
    case ReactiveCompactRetry =>
      now.Answered? && now.error.Some? && Compactable(cfg, w, now.error.value) && w.reactive.Some?
    case Escalate => now == Answered(Some(MaxOutputTokens)) && w.capEnabled && st.override == None
    case Recovery(n) =>
      now == Answered(Some(MaxOutputTokens)) && !(w.capEnabled && st.override == None) && n == st.recoveryCount + 1 <= 3
  }

  lemma LastErrorSame(assistants: seq<Message>)
    ensures LastError(assistants) == LastErrorOf(assistants)
  {
  }

  lemma HaltsSame(w: World)
    ensures Halts(w.toolMessages) <==> HookStops(w)
  {
    if Halts(w.toolMessages) {
      var m :| m in w.toolMessages && m.Attachment? && m.stops;
      var i :| 0 <= i < |w.toolMessages| && w.toolMessages[i] == m;
    }
  }

  lemma AnsweredStops(cfg: Config, st: State, w: World, s: Stream, left: Option<nat>, r: Reason)
    requires SituationOf(w) == Answered(LastErrorOf(s.assistants))
    ensures var o := Conclude(cfg, st, w, Request(st, w), s, left); o.Stop? && o.reason == r <==> Ends(cfg, st, w, r)
  {
    hide SituationOf, Request, Outs;
    LastErrorSame(s.assistants);
  }

  lemma ToolsStop(cfg: Config, st: State, w: World, s: Stream, left: Option<nat>, r: Reason)
    requires SituationOf(w) == CallsTools
    ensures var o := UseTools(cfg, st, w, Request(st, w), s, left); o.Stop? && o.reason == r <==> Ends(cfg, st, w, r)
  {
    hide SituationOf, Request, Outs, Halts, HookStops, Normalized;
    HaltsSame(w);
  }

  /** The run ends with an iteration, for a reason, exactly as the table of reasons says. */
  lemma StopsIff(cfg: Config, st: State, w: World, r: Reason)
    ensures Iterate(cfg, st, w).Stop? && Iterate(cfg, st, w).reason == r <==> Ends(cfg, st, w, r)
  {
    hide Response, Request, BudgetAfterCompaction, Opening, Surviving, UsesTools, MissingResults, Conclude, UseTools;
    ResponseTells(cfg, w);
    if SituationOf(w).Answered? {
      AnsweredStops(cfg, st, w, Response(cfg, w, Opening(w)), BudgetAfterCompaction(cfg, st, w), r);
    } else if SituationOf(w).CallsTools? {
      ToolsStop(cfg, st, w, Response(cfg, w, Opening(w)), BudgetAfterCompaction(cfg, st, w), r);
    }
  }

  lemma AnsweredGoesOn(cfg: Config, st: State, w: World, s: Stream, left: Option<nat>, t: Transition)
    requires SituationOf(w) == Answered(LastErrorOf(s.assistants))
    ensures var o := Conclude(cfg, st, w, Request(st, w), s, left);
            && (o.Continue? && o.state.transition == Some(t) <==> LeadsTo(cfg, st, w, t))
            && (o.Continue? ==> o.state.transition.Some?)
  {
    hide SituationOf, Request, Outs;
    LastErrorSame(s.assistants);
  }

  lemma ToolsGoOn(cfg: Config, st: State, w: World, s: Stream, left: Option<nat>, t: Transition)
    requires SituationOf(w) == CallsTools
    ensures var o := UseTools(cfg, st, w, Request(st, w), s, left);
            && (o.Continue? && o.state.transition == Some(t) <==> LeadsTo(cfg, st, w, t))
            && (o.Continue? ==> o.state.transition.Some?)
  {
    hide SituationOf, Request, Outs, Halts, HookStops, Normalized;
    HaltsSame(w);
  }

  /** The loop goes round again, by a transition, exactly as the table of transitions says. */
  lemma GoesOnIff(cfg: Config, st: State, w: World, t: Transition)
    ensures Iterate(cfg, st, w).Continue? && Iterate(cfg, st, w).state.transition == Some(t) <==> LeadsTo(cfg, st, w, t)
    ensures Iterate(cfg, st, w).Continue? ==> Iterate(cfg, st, w).state.transition.Some?
  {
    hide Response, Request, BudgetAfterCompaction, Opening, Surviving, UsesTools, MissingResults, Conclude, UseTools;
    ResponseTells(cfg, w);
    if SituationOf(w).Answered? {
      AnsweredGoesOn(cfg, st, w, Response(cfg, w, Opening(w)), BudgetAfterCompaction(cfg, st, w), t);
    } else if SituationOf(w).CallsTools? {
      ToolsGoOn(cfg, st, w, Response(cfg, w, Opening(w)), BudgetAfterCompaction(cfg, st, w), t);
    }
  }

  /** A clean answer: the stop hooks' blocking errors send the loop round again, the token budget may, and nothing else does. */
  lemma CleanAnswer(cfg: Config, st: State, w: World)
    requires Clean(w)
    ensures var o := Iterate(cfg, st, w);
            && (o.Continue? <==> !w.hookPrevents && (w.hookErrors != [] || w.budgetContinues))
            && (o.Stop? && o.reason == StopHookPrevented <==> w.hookPrevents)
            && (o.Stop? && o.reason == Completed <==> !w.hookPrevents && w.hookErrors == [] && !w.budgetContinues)
            && (o.Continue? ==>
                  o.state.messages == Request(st, w) + Surviving(w.items) + (if w.hookErrors != [] then w.hookErrors else [User(NUDGE, [])]))
  {
    hide Response, Request, BudgetAfterCompaction, Opening, Surviving, UsesTools, MissingResults, Outs;
    ResponseTells(cfg, w);
    LastErrorSame(Surviving(w.items));
  }

  // ---- What an iteration leaves to the next ----

  /** The counters and guards after each transition. */
  lemma NextCounters(cfg: Config, st: State, w: World)
    requires Iterate(cfg, st, w).Continue?
    ensures var next := Iterate(cfg, st, w).state;
            var t := next.transition;
            && t.Some?
            && next.recoveryCount == (match t.value
                 case NextTurn => 0
                 case StopHookBlocking => 0
                 case TokenBudgetContinuation => 0
                 case Recovery(n) => n
                 case _ => st.recoveryCount)
            && next.turnCount == (if t == Some(NextTurn) then st.turnCount + 1 else st.turnCount)
            && next.attemptedCompact == (match t.value
                 case NextTurn => false
                 case TokenBudgetContinuation => false
                 case ReactiveCompactRetry => true
                 case _ => st.attemptedCompact)
            && next.override == (if t == Some(Escalate) then Some(64000) else None)
            && next.stopHookActive == (match t.value
                 case NextTurn => st.stopHookActive
                 case StopHookBlocking => true
                 case _ => false)
  {
    hide Response, Request, BudgetAfterCompaction, Opening, MissingResults, Halts, Outs, Normalized;
  }

  /** What the loop keeps of the tools' updates, message by message. */
  function Kept(m: Message): seq<Message> {
    if m.User? then [m] else if m.Attachment? then [User(m.body, [])] else []
  }

  function KeptAll(messages: seq<Message>): seq<Message> {
    if messages == [] then [] else Kept(messages[0]) + KeptAll(messages[1..])
  }

  lemma {:induction false} NormalizedKeeps(messages: seq<Message>)
    ensures Normalized(messages) == KeptAll(messages)
  {
    if messages != [] {
      var init, last := messages[..|messages| - 1], messages[|messages| - 1];
      NormalizedKeeps(init);
      KeptConcat(init, [last]);
      assert init + [last] == messages && [last][1..] == [];
      assert KeptAll([last]) == Kept(last) + KeptAll([]);
    }
  }

  lemma {:induction false} KeptConcat(a: seq<Message>, b: seq<Message>)
    ensures KeptAll(a + b) == KeptAll(a) + KeptAll(b)
  {
    if a == [] {
      assert a + b == b;
    } else {
      assert (a + b)[1..] == a[1..] + b;
      KeptConcat(a[1..], b);
    }
  }

  /** The conversation of the next iteration, for each transition. */
  lemma NextMessages(cfg: Config, st: State, w: World)
    requires Iterate(cfg, st, w).Continue?
    ensures var next := Iterate(cfg, st, w).state;
            var said := Request(st, w) + Surviving(w.items);
            && next.transition.Some?
            && (next.transition == Some(ReactiveCompactRetry) ==> w.reactive.Some? && next.messages == w.reactive.value.messages)
            && (next.transition == Some(Escalate) ==> next.messages == Request(st, w))
            && (next.transition.value.Recovery? ==> next.messages == said + [User(RESUME, [])])
            && (next.transition == Some(StopHookBlocking) ==> next.messages == said + w.hookErrors)
            && (next.transition == Some(TokenBudgetContinuation) ==> next.messages == said + [User(NUDGE, [])])
            && (next.transition == Some(NextTurn) ==> next.messages == said + (KeptAll(w.toolMessages) + w.attachments))
  {
    hide Response, Request, BudgetAfterCompaction, Opening, Surviving, UsesTools, MissingResults, Halts, Outs, Normalized, KeptAll;
    ResponseTells(cfg, w);
    NormalizedKeeps(w.toolMessages);
  }

  predicate Boundary(m: Message) { m.System? && m.boundary }

  /** A message whose content may have been replaced in place. */
  function Edited(m: Message, edits: map<nat, Body>, i: nat): Message { if i in edits then m.(body := edits[i]) else m }

  /** The request: the summary if compaction ran, and otherwise everything from the last compact boundary
      on, with contents replaced where the budget on tool results says so. */
  lemma RequestIs(st: State, w: World)
    ensures w.compaction.Some? ==> Request(st, w) == w.compaction.value.messages
    ensures w.compaction.None? ==>
              var from := |st.messages| - |Request(st, w)|;
              && from >= 0
              && (forall i :: from < i < |st.messages| ==> !Boundary(st.messages[i]))
              && (from > 0 ==> from < |st.messages| && Boundary(st.messages[from]))
              && forall i :: 0 <= i < |Request(st, w)| ==> Request(st, w)[i] == Edited(st.messages[from + i], w.edits, i)
  {
    LastBoundaryIs(st.messages);
  }

  lemma {:induction false} LastBoundaryIs(messages: seq<Message>)
    ensures var i := LastBoundaryIndex(messages);
            && (i >= 0 ==> Boundary(messages[i]))
            && forall j :: i < j < |messages| ==> !Boundary(messages[j])
  {
    if messages != [] {
      LastBoundaryIs(messages[..|messages| - 1]);
    }
  }

  // ---- What an iteration shows after the response ----

  function Notice(cfg: Config, turns: nat): seq<Yield> {
    if PastLimit(cfg, turns) then [Out(Attachment(MAX_TURNS_REACHED, false))] else []
  }

  function Interruption(w: World): seq<Yield> { if w.submitInterrupt then [] else [Out(User(INTERRUPTION, []))] }

  /** Told from the situation. */
  function Closing(cfg: Config, st: State, w: World): seq<Yield> {
    var left := Surviving(w.items);
    match SituationOf(w)
    case Refused => [ApiError(TOO_LONG, PromptTooLong)]
    case BrokenOff(true) => [ApiError(MODEL_FAILED, OtherError)]
    case BrokenOff(false) => Answers(UseIds(left), MODEL_FAILED) + [ApiError(MODEL_FAILED, OtherError)]
    case Interrupted => Answers(UseIds(left), INTERRUPTED) + Interruption(w)
    case Answered(None) => Outs(w.hookMessages)
    case Answered(Some(kind)) =>
      if Compactable(cfg, w, kind) then
        if w.reactive.Some? then Outs(w.reactive.value.messages) else [Out(left[|left| - 1])]
      else if Ends(cfg, st, w, Completed) && kind == MaxOutputTokens then [Out(left[|left| - 1])]
      else []
    case CallsTools =>
      if w.abortedTools then Outs(w.toolMessages) + (Interruption(w) + Notice(cfg, st.turnCount + 1))
      else if HookStops(w) then Outs(w.toolMessages)
      else Outs(w.toolMessages) + (Outs(w.attachments) + Notice(cfg, st.turnCount + 1))
  }

  lemma AnsweredShows(cfg: Config, st: State, w: World, s: Stream, left: Option<nat>)
    requires s.assistants == Surviving(w.items) && SituationOf(w) == Answered(LastErrorOf(s.assistants))
    ensures Conclude(cfg, st, w, Request(st, w), s, left).shown == Closing(cfg, st, w)
  {
    hide SituationOf, Request, Outs, Surviving;
    LastErrorSame(s.assistants);
  }

  lemma ToolsShow(cfg: Config, st: State, w: World, s: Stream, left: Option<nat>)
    requires SituationOf(w) == CallsTools
    ensures UseTools(cfg, st, w, Request(st, w), s, left).shown == Closing(cfg, st, w)
  {
    hide SituationOf, Request, Outs, Surviving, Halts, HookStops, Normalized;
    HaltsSame(w);
  }

  /** What an iteration shows: the response, and then what its situation calls for. */
  lemma ShownIs(cfg: Config, st: State, w: World)
    ensures var s := Response(cfg, w, Opening(w));
            Iterate(cfg, st, w).shown == (if SituationOf(w) == Refused then Opening(w) else s.shown) + Closing(cfg, st, w)
  {
    hide Response, Request, BudgetAfterCompaction, Opening, Surviving, UsesTools, MissingResults, UseIds, Answers, Conclude, UseTools;
    ResponseTells(cfg, w);
    MissingResultsAnswer(Surviving(w.items), MODEL_FAILED);
    MissingResultsAnswer(Surviving(w.items), INTERRUPTED);
    if SituationOf(w).Answered? {
      AnsweredShows(cfg, st, w, Response(cfg, w, Opening(w)), BudgetAfterCompaction(cfg, st, w));
    } else if SituationOf(w).CallsTools? {
      ToolsShow(cfg, st, w, Response(cfg, w, Opening(w)), BudgetAfterCompaction(cfg, st, w));
    }
  }

  // ---- Whole runs ----

  /** The state before iteration `k` of a run, if the run gets there. */
  function StateBefore(cfg: Config, st: State, worlds: seq<World>, k: nat): Option<State>
    requires k <= |worlds|
    decreases k
  {
    if k == 0 then Some(st)
    else
      match Iterate(cfg, st, worlds[0])
      case Stop(_, _) => None
      case Continue(next, _) => StateBefore(cfg, next, worlds[1..], k - 1)
  }

  /** A run that ends for a reason ends in an iteration the table gives that reason for; one that does not, went on throughout. */
  lemma {:induction false} RunEnds(cfg: Config, st: State, worlds: seq<World>)
    ensures var run := Loop(cfg, st, worlds);
            match run.reason
            case Some(r) =>
              exists k :: 0 <= k < |worlds| && StateBefore(cfg, st, worlds, k) == Some(run.state) && Ends(cfg, run.state, worlds[k], r)
            case None => StateBefore(cfg, st, worlds, |worlds|) == Some(run.state)
    decreases |worlds|
  {
    hide Iterate, Ends;
    if worlds != [] {
      var run := Loop(cfg, st, worlds);
      match Iterate(cfg, st, worlds[0])
      case Stop(r, _) =>
        StopsIff(cfg, st, worlds[0], r);
        assert StateBefore(cfg, st, worlds, 0) == Some(run.state);
      case Continue(next, _) =>
        RunEnds(cfg, next, worlds[1..]);
        if run.reason.Some? {
          var k :| 0 <= k < |worlds[1..]| && StateBefore(cfg, next, worlds[1..], k) == Some(run.state)
                   && Ends(cfg, run.state, worlds[1..][k], run.reason.value);
          assert StateBefore(cfg, st, worlds, k + 1) == Some(run.state) && worlds[k + 1] == worlds[1..][k];
        }
    }
  }

  /** A run that ends `Completed` ends with a clean answer, no blocking error and nothing more asked
      for by the token budget, or with an error past recovery. */
  lemma CompletedMeans(cfg: Config, st: State, worlds: seq<World>)
    requires Loop(cfg, st, worlds).reason == Some(Completed)
    ensures exists k :: 0 <= k < |worlds| && StateBefore(cfg, st, worlds, k) == Some(Loop(cfg, st, worlds).state) &&
              var w := worlds[k];
              if Clean(w) then !w.hookPrevents && w.hookErrors == [] && !w.budgetContinues
              else SituationOf(w).Answered? && SituationOf(w).error.Some?
  {
    hide Loop, StateBefore, SituationOf;
    RunEnds(cfg, st, worlds);
    var k :| 0 <= k < |worlds| && StateBefore(cfg, st, worlds, k) == Some(Loop(cfg, st, worlds).state)
             && Ends(cfg, Loop(cfg, st, worlds).state, worlds[k], Completed);
    assert Ends(cfg, Loop(cfg, st, worlds).state, worlds[k], Completed);
  }

  lemma LimitPassed(cfg: Config, st: State, w: World, n: nat)
    requires Ends(cfg, st, w, MaxTurns(n))
    ensures cfg.maxTurns > 0 && n == st.turnCount + 1 > cfg.maxTurns
  {
  }

  /** The turn limit ends a run only when it is used up: at that many turns, all but the first of them tool turns of this run. */
  lemma TurnLimitMet(cfg: Config, st: State, worlds: seq<World>, n: nat)
    requires cfg.maxTurns > 0 ==> st.turnCount <= cfg.maxTurns
    requires Loop(cfg, st, worlds).reason == Some(MaxTurns(n))
    ensures cfg.maxTurns > 0 && n == cfg.maxTurns + 1
    ensures st.turnCount + ToolTurns(Transitions(cfg, st, worlds)) == cfg.maxTurns
  {
    hide *;
    RunEnds(cfg, st, worlds);
    TurnLimit(cfg, st, worlds);
    var k :| 0 <= k < |worlds| && StateBefore(cfg, st, worlds, k) == Some(Loop(cfg, st, worlds).state)
             && Ends(cfg, Loop(cfg, st, worlds).state, worlds[k], MaxTurns(n));
    LimitPassed(cfg, Loop(cfg, st, worlds).state, worlds[k], n);
  }

  /** From the start of a query, a limit of `maxTurns` ends the run after just that many turns: the first and `maxTurns - 1` tool turns. */
  lemma TurnLimitFromStart(cfg: Config, messages: seq<Message>, override: Option<nat>, worlds: seq<World>, n: nat)
    requires Loop(cfg, Start(messages, override), worlds).reason == Some(MaxTurns(n))
    ensures cfg.maxTurns > 0 && n == cfg.maxTurns + 1
    ensures 1 + ToolTurns(Transitions(cfg, Start(messages, override), worlds)) == cfg.maxTurns
  {
    hide Loop, Transitions, ToolTurns;
    TurnLimitMet(cfg, Start(messages, override), worlds, n);
  }

  /** The last of these transitions other than tool turns was a blocking by stop hooks. */
  predicate BlockedLast(ts: seq<Transition>) {
    exists k :: 0 <= k < |ts| && ts[k].StopHookBlocking? && forall j :: k < j < |ts| ==> ts[j].NextTurn?
  }

  predicate OnlyToolTurns(ts: seq<Transition>) { forall j :: 0 <= j < |ts| ==> ts[j].NextTurn? }

  lemma BlockedLastFirst(t: Transition, ts: seq<Transition>)
    ensures BlockedLast([t] + ts) <==> BlockedLast(ts) || (t.StopHookBlocking? && OnlyToolTurns(ts))
    ensures OnlyToolTurns([t] + ts) <==> t.NextTurn? && OnlyToolTurns(ts)
  {
    var all := [t] + ts;
    assert forall j :: 0 <= j < |ts| ==> ts[j] == all[j + 1];
    if BlockedLast(ts) || (t.StopHookBlocking? && OnlyToolTurns(ts)) { BlockedLater(t, ts); }
    if BlockedLast(all) {
      var k :| 0 <= k < |all| && all[k].StopHookBlocking? && forall j :: k < j < |all| ==> all[j].NextTurn?;
      if k > 0 {
        assert ts[k - 1].StopHookBlocking? && forall j :: k - 1 < j < |ts| ==> ts[j] == all[j + 1];
        assert BlockedLast(ts);
      } else {
        assert forall j :: 0 <= j < |ts| ==> ts[j].NextTurn?;
      }
    }
    if OnlyToolTurns(all) {
      assert all[0] == t && forall j :: 0 <= j < |ts| ==> ts[j].NextTurn?;
    }
  }

  lemma BlockedLater(t: Transition, ts: seq<Transition>)
    requires BlockedLast(ts) || (t.StopHookBlocking? && OnlyToolTurns(ts))
    ensures BlockedLast([t] + ts)
  {
    var all := [t] + ts;
    if BlockedLast(ts) {
      var k :| 0 <= k < |ts| && ts[k].StopHookBlocking? && forall j :: k < j < |ts| ==> ts[j].NextTurn?;
      assert all[k + 1].StopHookBlocking? && forall j :: k + 1 < j < |all| ==> all[j] == ts[j - 1];
    } else {
      assert all[0].StopHookBlocking? && forall j :: 0 < j < |all| ==> all[j] == ts[j - 1];
    }
  }

  lemma {:induction false} HookFlagFrom(cfg: Config, st: State, worlds: seq<World>)
    ensures var ts := Transitions(cfg, st, worlds);
            Loop(cfg, st, worlds).state.stopHookActive <==> BlockedLast(ts) || (st.stopHookActive && OnlyToolTurns(ts))
    decreases |worlds|
  {
    hide Iterate, BlockedLast, OnlyToolTurns;
    if worlds == [] || Iterate(cfg, st, worlds[0]).Stop? {
      NoneBlocked();
    } else {
      var next := Iterate(cfg, st, worlds[0]).state;
      NextCounters(cfg, st, worlds[0]);
      HookFlagFrom(cfg, next, worlds[1..]);
      assert Transitions(cfg, st, worlds) == [next.transition.value] + Transitions(cfg, next, worlds[1..]);
      BlockedLastFirst(next.transition.value, Transitions(cfg, next, worlds[1..]));
    }
  }

  lemma NoneBlocked()
    ensures !BlockedLast([]) && OnlyToolTurns([])
  {
  }

  /** Stop hooks are told that they are active exactly after they have blocked, through any tool turns
      since, until another answer, retry or continuation. */
  lemma HookFlag(cfg: Config, messages: seq<Message>, override: Option<nat>, worlds: seq<World>)
    ensures var st := Start(messages, override);
            Loop(cfg, st, worlds).state.stopHookActive <==> BlockedLast(Transitions(cfg, st, worlds))
  {
    HookFlagFrom(cfg, Start(messages, override), worlds);
  }

  lemma {:induction false} StateBeforeNext(cfg: Config, st: State, worlds: seq<World>, k: nat)
    requires k < |worlds| && StateBefore(cfg, st, worlds, k).Some?
    ensures var o := Iterate(cfg, StateBefore(cfg, st, worlds, k).value, worlds[k]);
            StateBefore(cfg, st, worlds, k + 1) == if o.Continue? then Some(o.state) else None
    decreases k
  {
    hide Iterate;
    if k > 0 {
      StateBeforeNext(cfg, Iterate(cfg, st, worlds[0]).state, worlds[1..], k - 1);
    }
  }

  /** Blocking errors reach the model. In any run, after a clean answer that stop hooks blocked, the next
      request, unless compacted, ends with the hooks' errors, but for contents replaced in it. */
  lemma BlockingErrorsReachModel(cfg: Config, st: State, worlds: seq<World>, k: nat)
    requires k + 1 < |worlds| && StateBefore(cfg, st, worlds, k).Some? && Clean(worlds[k])
    requires !worlds[k].hookPrevents && worlds[k].hookErrors != []
    requires forall i :: 0 <= i < |worlds[k].hookErrors| ==> !Boundary(worlds[k].hookErrors[i])
    requires worlds[k + 1].compaction.None?
    ensures var errors, edits := worlds[k].hookErrors, worlds[k + 1].edits;
            var next := StateBefore(cfg, st, worlds, k + 1);
            && next.Some?
            && var request := Request(next.value, worlds[k + 1]);
               |request| >= |errors| && forall i :: |request| - |errors| <= i < |request| ==>
                 request[i] == Edited(errors[i - (|request| - |errors|)], edits, i)
  {
    hide StateBefore, Surviving, Clean, Request, Edited;
    var at, w, after := StateBefore(cfg, st, worlds, k).value, worlds[k], worlds[k + 1];
    var errors := w.hookErrors;
    StateBeforeNext(cfg, st, worlds, k);
    CleanAnswer(cfg, at, w);
    var next := Iterate(cfg, at, w).state;
    hide Iterate;
    RequestIs(next, after);
    var request := Request(next, after);
    var said := Request(at, w) + Surviving(w.items);
    var from := |next.messages| - |request|;
    assert next.messages == said + errors;
    assert forall i :: |said| <= i < |next.messages| ==> next.messages[i] == errors[i - |said|];
    assert forall i :: |said| <= i < |next.messages| ==> !Boundary(next.messages[i]);
    assert from <= |said|;
    forall i | |request| - |errors| <= i < |request|
      ensures request[i] == Edited(errors[i - (|request| - |errors|)], after.edits, i)
    {
      assert next.messages[from + i] == errors[from + i - |said|];
      assert from + i - |said| == i - (|request| - |errors|);
    }
  }
}
