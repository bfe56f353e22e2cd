/** Recovery in the query loop: retries are bounded, errors are withheld and
    surfaced exactly as promised, and the budgets add up. */
module QueryRecovery {
  import opened Prelude
  import opened QueryLoop

  predicate IsRetry(t: Transition) { t.ReactiveCompactRetry? || t.Escalate? || t.Recovery? }

  /** Reactive compaction refuses a second attempt. */
  predicate RefusesTwice(st: State, w: World) { st.attemptedCompact ==> w.reactive.None? }

  /** The transitions of a run, one per iteration that went on. */
  function Transitions(cfg: Config, st: State, worlds: seq<World>): seq<Transition>
    decreases |worlds|
  {
    if worlds == [] then []
    else
      match Iterate(cfg, st, worlds[0])
      case Stop(_, _) => []
      case Continue(next, _) =>
        (if next.transition.Some? then [next.transition.value] else []) + Transitions(cfg, next, worlds[1..])
  }

  /** Every iteration goes on, and reactive compaction keeps its contract. */
  ghost predicate GoesOn(cfg: Config, st: State, worlds: seq<World>)
    decreases |worlds|
  {
    worlds == [] ||
    (RefusesTwice(st, worlds[0]) && var o := Iterate(cfg, st, worlds[0]); o.Continue? && GoesOn(cfg, o.state, worlds[1..]))
  }

  // ---- Bounded recovery ----

  /** Retries left: a compaction or a recovery may each be followed by one escalation. */
  function Fuel(st: State): int {
    (if st.attemptedCompact then 0 else 2) + 2 * (RECOVERY_LIMIT - st.recoveryCount) + (if st.override.None? then 1 else 0)
  }

  function Count(ts: seq<Transition>, kind: Transition -> bool): nat {
    if ts == [] then 0 else (if kind(ts[0]) then 1 else 0) + Count(ts[1..], kind)
  }

  lemma RetryBurnsFuel(cfg: Config, st: State, w: World)
    requires st.recoveryCount <= RECOVERY_LIMIT && RefusesTwice(st, w)
    requires Iterate(cfg, st, w).Continue?
    ensures var next := Iterate(cfg, st, w).state;
            && next.transition.Some? && next.recoveryCount <= RECOVERY_LIMIT
            && (IsRetry(next.transition.value) ==> 0 <= Fuel(next) < Fuel(st) <= 9)
            && (next.transition == Some(ReactiveCompactRetry) ==>
                  !st.attemptedCompact && next.attemptedCompact && next.recoveryCount == st.recoveryCount && next.override == None)
            && (next.transition == Some(Escalate) ==>
                  && st.override == None && next.override != None
                  && next.attemptedCompact == st.attemptedCompact && next.recoveryCount == st.recoveryCount)
            && (next.transition.value.Recovery? ==>
                  next.recoveryCount == st.recoveryCount + 1 && next.attemptedCompact == st.attemptedCompact && next.override == None)
  {
    hide Response, Rewrite, AfterBoundary;
  }

  /** Bounded recovery. However the model, the compactor and the feature gates behave,
      a stretch of retries has at most nine: one compaction, three recoveries, and
      one escalation at the start and after each of these. */
  lemma {:induction false} BoundedRecovery(cfg: Config, st: State, worlds: seq<World>)
    requires st.recoveryCount <= RECOVERY_LIMIT && GoesOn(cfg, st, worlds)
    requires forall t :: t in Transitions(cfg, st, worlds) ==> IsRetry(t)
    ensures |Transitions(cfg, st, worlds)| == |worlds| <= Fuel(st) <= 9
    ensures var ts := Transitions(cfg, st, worlds);
            var compacts := Count(ts, (t: Transition) => t.ReactiveCompactRetry?);
            var recoveries := Count(ts, (t: Transition) => t.Recovery?);
            && compacts <= (if st.attemptedCompact then 0 else 1)
            && recoveries <= RECOVERY_LIMIT - st.recoveryCount
            && Count(ts, (t: Transition) => t.Escalate?) <= (if st.override.None? then 1 else 0) + compacts + recoveries
    decreases |worlds|
  {
    if worlds != [] {
      RetryBurnsFuel(cfg, st, worlds[0]);
      var next := Iterate(cfg, st, worlds[0]).state;
      var ts := Transitions(cfg, st, worlds);
      assert ts == [next.transition.value] + Transitions(cfg, next, worlds[1..]);
      assert ts[0] in ts && ts[1..] == Transitions(cfg, next, worlds[1..]);
      BoundedRecovery(cfg, next, worlds[1..]);
    }
  }

  lemma {:induction false} OneTransitionEach(cfg: Config, st: State, worlds: seq<World>)
    requires st.recoveryCount <= RECOVERY_LIMIT && GoesOn(cfg, st, worlds)
    ensures |Transitions(cfg, st, worlds)| == |worlds|
    decreases |worlds|
  {
    if worlds != [] {
      RetryBurnsFuel(cfg, st, worlds[0]);
      OneTransitionEach(cfg, Iterate(cfg, st, worlds[0]).state, worlds[1..]);
    }
  }

  lemma {:induction false} GoesOnPrefix(cfg: Config, st: State, worlds: seq<World>, n: nat)
    requires st.recoveryCount <= RECOVERY_LIMIT && GoesOn(cfg, st, worlds) && n <= |worlds|
    ensures GoesOn(cfg, st, worlds[..n])
    ensures |Transitions(cfg, st, worlds)| == |worlds| && Transitions(cfg, st, worlds[..n]) == Transitions(cfg, st, worlds)[..n]
    decreases n
  {
    OneTransitionEach(cfg, st, worlds);
    if n > 0 {
      RetryBurnsFuel(cfg, st, worlds[0]);
      var next := Iterate(cfg, st, worlds[0]).state;
      assert worlds[..n][1..] == worlds[1..][..n - 1];
      GoesOnPrefix(cfg, next, worlds[1..], n - 1);
      assert Transitions(cfg, st, worlds) == [next.transition.value] + Transitions(cfg, next, worlds[1..]);
    }
  }

  /** In a whole run, any consecutive retries between two other transitions number at most nine. */
  lemma {:induction false} NoLongRetryWindow(cfg: Config, st: State, worlds: seq<World>, i: nat, j: nat)
    requires st.recoveryCount <= RECOVERY_LIMIT && GoesOn(cfg, st, worlds)
    requires i <= j <= |Transitions(cfg, st, worlds)|
    requires forall k :: i <= k < j ==> IsRetry(Transitions(cfg, st, worlds)[k])
    ensures j - i <= 9
    decreases |worlds|
  {
    OneTransitionEach(cfg, st, worlds);
    if i == 0 {
      GoesOnPrefix(cfg, st, worlds, j);
      BoundedRecovery(cfg, st, worlds[..j]);
    } else {
      RetryBurnsFuel(cfg, st, worlds[0]);
      var next := Iterate(cfg, st, worlds[0]).state;
      assert Transitions(cfg, st, worlds)[1..] == Transitions(cfg, next, worlds[1..]);
      NoLongRetryWindow(cfg, next, worlds[1..], i - 1, j - 1);
    }
  }

  /** The transitions that let reactive compaction be tried again. */
  predicate Rearms(t: Transition) { t.NextTurn? || t.TokenBudgetContinuation? }

  lemma GuardHolds(cfg: Config, st: State, w: World)
    requires RefusesTwice(st, w) && Iterate(cfg, st, w).Continue?
    ensures var next := Iterate(cfg, st, w).state;
            && next.transition.Some?
            && (next.transition.value.ReactiveCompactRetry? ==> !st.attemptedCompact && next.attemptedCompact)
            && (st.attemptedCompact && !Rearms(next.transition.value) ==> next.attemptedCompact)
  {
    hide Response, Rewrite, AfterBoundary;
  }

  lemma {:induction false} CompactionNeedsRearming(cfg: Config, st: State, worlds: seq<World>, j: nat)
    requires st.attemptedCompact && GoesOn(cfg, st, worlds)
    requires j < |Transitions(cfg, st, worlds)| && Transitions(cfg, st, worlds)[j].ReactiveCompactRetry?
    ensures exists k :: 0 <= k < j && Rearms(Transitions(cfg, st, worlds)[k])
    decreases |worlds|
  {
    hide Iterate;
    GuardHolds(cfg, st, worlds[0]);
    var ts := Transitions(cfg, st, worlds);
    var next := Iterate(cfg, st, worlds[0]).state;
    assert ts == [next.transition.value] + Transitions(cfg, next, worlds[1..]);
    if !Rearms(ts[0]) {
      CompactionNeedsRearming(cfg, next, worlds[1..], j - 1);
      var k :| 0 <= k < j - 1 && Rearms(Transitions(cfg, next, worlds[1..])[k]);
      assert Rearms(ts[k + 1]);
    }
  }

  /** The guard survives stop hooks. In any run, between two reactive compactions lies a
      completed tool turn or a token-budget continuation, however often stop hooks retried. */
  lemma {:induction false} CompactionsApart(cfg: Config, st: State, worlds: seq<World>, i: nat, j: nat)
    requires GoesOn(cfg, st, worlds) && i < j < |Transitions(cfg, st, worlds)|
    requires Transitions(cfg, st, worlds)[i].ReactiveCompactRetry? && Transitions(cfg, st, worlds)[j].ReactiveCompactRetry?
    ensures exists k :: i < k < j && Rearms(Transitions(cfg, st, worlds)[k])
    decreases |worlds|
  {
    hide Iterate;
    GuardHolds(cfg, st, worlds[0]);
    var ts := Transitions(cfg, st, worlds);
    var next := Iterate(cfg, st, worlds[0]).state;
    assert ts == [next.transition.value] + Transitions(cfg, next, worlds[1..]);
    if i == 0 {
      CompactionNeedsRearming(cfg, next, worlds[1..], j - 1);
      var k :| 0 <= k < j - 1 && Rearms(Transitions(cfg, next, worlds[1..])[k]);
      assert Rearms(ts[k + 1]);
    } else {
      CompactionsApart(cfg, next, worlds[1..], i - 1, j - 1);
      var k :| i - 1 < k < j - 1 && Rearms(Transitions(cfg, next, worlds[1..])[k]);
      assert Rearms(ts[k + 1]);
    }
  }

  // ---- Nine retries do happen ----

  function Failing(kind: ErrorKind, reactive: Option<Compaction>): World {
    World(map[], None, false, [], [Streamed(Assistant(0, [], Some(kind)))], Finished, false, false, false,
          reactive, true, [], false, [], false, [], false, [])
  }

  lemma FailingResponse(cfg: Config, kind: ErrorKind, reactive: Option<Compaction>)
    ensures var w := Failing(kind, reactive);
            var s := Response(cfg, w, Opening(w));
            s.assistants == [Assistant(0, [], Some(kind))] && !s.needsFollowUp
  {
    var w := Failing(kind, reactive);
    assert w.items[..0] == [];
    assert ConsumeAll(cfg, w, Fresh(AfterFallbacks(cfg, w, 0, Opening(w))), w.items[..0]) == Fresh(Opening(w));
  }

  function OutputErrors(n: nat): seq<World> {
    if n == 0 then [] else [Failing(MaxOutputTokens, None)] + OutputErrors(n - 1)
  }

  /** With the output error repeating, the state walks through escalation and recovery until the fuel is gone. */
  lemma {:induction false} OutputErrorsRetry(cfg: Config, st: State, n: nat)
    requires st.recoveryCount <= RECOVERY_LIMIT && st.attemptedCompact && n == Fuel(st)
    ensures GoesOn(cfg, st, OutputErrors(n))
    ensures forall t :: t in Transitions(cfg, st, OutputErrors(n)) ==> IsRetry(t)
    ensures |Transitions(cfg, st, OutputErrors(n))| == n
    decreases n
  {
    hide Response, Rewrite, AfterBoundary;
    if n > 0 {
      var w := Failing(MaxOutputTokens, None);
      FailingResponse(cfg, MaxOutputTokens, None);
      var o := Iterate(cfg, st, w);
      assert o.Continue? && Fuel(o.state) == n - 1 && o.state.attemptedCompact;
      assert OutputErrors(n)[1..] == OutputErrors(n - 1);
      OutputErrorsRetry(cfg, o.state, n - 1);
    }
  }

  lemma FirstErrorEscalates(cfg: Config, messages: seq<Message>)
    ensures var o := Iterate(cfg, Start(messages, None), Failing(MaxOutputTokens, None));
            && o.Continue? && o.state.transition == Some(Escalate)
            && o.state.override.Some? && !o.state.attemptedCompact && o.state.recoveryCount == 0
  {
    hide Response, Rewrite, AfterBoundary;
    FailingResponse(cfg, MaxOutputTokens, None);
  }

  lemma TooLongCompacts(cfg: Config, st: State, c: Compaction)
    requires cfg.reactive && st.recoveryCount == 0
    ensures var o := Iterate(cfg, st, Failing(PromptTooLong, Some(c)));
            && o.Continue? && o.state.transition == Some(ReactiveCompactRetry)
            && o.state.attemptedCompact && o.state.recoveryCount == 0 && Fuel(o.state) == 7
  {
    hide Response, Rewrite, AfterBoundary;
    FailingResponse(cfg, PromptTooLong, Some(c));
  }

  /** The bound is met within its own hypothesis: an output error, a prompt-too-long error that is
      compacted away, then output errors, with no second compaction. */
  lemma NineRetries(cfg: Config, messages: seq<Message>, c: Compaction)
    requires cfg.reactive
    ensures var worlds := [Failing(MaxOutputTokens, None)] + ([Failing(PromptTooLong, Some(c))] + OutputErrors(7));
            var st := Start(messages, None);
            && GoesOn(cfg, st, worlds)
            && |Transitions(cfg, st, worlds)| == 9 && forall t :: t in Transitions(cfg, st, worlds) ==> IsRetry(t)
  {
    hide Iterate, Failing, Fuel;
    var st := Start(messages, None);
    FirstErrorEscalates(cfg, messages);
    var st1 := Iterate(cfg, st, Failing(MaxOutputTokens, None)).state;
    TooLongCompacts(cfg, st1, c);
    var st2 := Iterate(cfg, st1, Failing(PromptTooLong, Some(c))).state;
    OutputErrorsRetry(cfg, st2, 7);
    var later := [Failing(PromptTooLong, Some(c))] + OutputErrors(7);
    var worlds := [Failing(MaxOutputTokens, None)] + later;
    assert later[1..] == OutputErrors(7) && worlds[1..] == later;
    assert Transitions(cfg, st1, later) == [ReactiveCompactRetry] + Transitions(cfg, st2, OutputErrors(7));
    assert Transitions(cfg, st, worlds) == [Escalate] + Transitions(cfg, st1, later);
    assert GoesOn(cfg, st1, later);
  }

  // ---- No death spiral ----

  /** The response of this iteration ended in an API error: no tools, no abort, nothing thrown. */
  predicate EndsInError(cfg: Config, st: State, w: World) {
    var s := Response(cfg, w, Opening(w));
    !(w.compaction.None? && w.blocked) && w.end.Finished? && !w.aborted && !s.needsFollowUp && LastError(s.assistants).Some?
  }

  /** An error is never handed to stop hooks or the token budget: it is retried or it ends the run. */
  lemma ErrorsSkipHooks(cfg: Config, st: State, w: World)
    requires EndsInError(cfg, st, w)
    ensures match Iterate(cfg, st, w)
            case Continue(next, _) => next.transition.Some? && IsRetry(next.transition.value)
            case Stop(r, _) => r in {TooLong, ImageError, Completed}
  {
  }

  ghost predicate AllErrors(cfg: Config, st: State, worlds: seq<World>)
    decreases |worlds|
  {
    worlds == [] ||
    (&& RefusesTwice(st, worlds[0]) && EndsInError(cfg, st, worlds[0])
     && var o := Iterate(cfg, st, worlds[0]); o.Continue? ==> AllErrors(cfg, o.state, worlds[1..]))
  }

  /** A run in which every response ends in an error stops within ten iterations. */
  lemma {:induction false} NoDeathSpiral(cfg: Config, st: State, worlds: seq<World>)
    requires st.recoveryCount <= RECOVERY_LIMIT && AllErrors(cfg, st, worlds)
    requires |worlds| > Fuel(st)
    ensures Fuel(st) <= 9 && Loop(cfg, st, worlds).reason.Some?
    decreases |worlds|
  {
    ErrorsSkipHooks(cfg, st, worlds[0]);
    if Iterate(cfg, st, worlds[0]).Continue? {
      RetryBurnsFuel(cfg, st, worlds[0]);
      NoDeathSpiral(cfg, Iterate(cfg, st, worlds[0]).state, worlds[1..]);
    }
  }

  // ---- Streaming fallback ----

  /** The streaming-fallback flag is never cleared within an attempt: of all that
      arrives after it, only the very last item can leave a message behind. */
  lemma {:induction false} FallbackKeepsLastOnly(cfg: Config, w: World, s: Stream, items: seq<StreamItem>)
    requires s.fellBack && items != [] && FallbackSignal !in items
    ensures var t := ConsumeAll(cfg, w, s, items);
            var last := items[|items| - 1];
            && t.fellBack
            && t.assistants == (if last.Streamed? && last.message.Assistant? then [last.message] else [])
    decreases |items|
  {
    var init := items[..|items| - 1];
    assert items[|items| - 1] in items;
    if init != [] {
      FallbackKeepsLastOnly(cfg, w, s, init);
    }
  }

  // ---- Budgets ----

  datatype Spent = Spent(compactions: nat, tokens: nat) {
    function Plus(other: Spent): Spent { Spent(compactions + other.compactions, tokens + other.tokens) }
  }

  function One(c: Option<Compaction>): Spent {
    match c
    case None => Spent(0, 0)
    case Some(x) => Spent(1, x.contextTokens)
  }

  /** The compaction that made this state, if it was a reactive one. */
  function ReactiveOf(w: World, next: State): Option<Compaction> {
    if next.transition == Some(ReactiveCompactRetry) then w.reactive else None
  }

  function Charge(spent: Spent, w: World, next: State): Spent {
    spent.Plus(One(w.compaction)).Plus(One(ReactiveOf(w, next)))
  }

  /** `spent` and all compactions, proactive and reactive, of the iterations of a run that went on. */
  function CompactedAway(cfg: Config, st: State, worlds: seq<World>, spent: Spent): Spent
    decreases |worlds|
  {
    if worlds == [] || Iterate(cfg, st, worlds[0]).Stop? then spent
    else
      var next := Iterate(cfg, st, worlds[0]).state;
      CompactedAway(cfg, next, worlds[1..], Charge(spent, worlds[0], next))
  }

  /** What is left of the task budget after some compactions. */
  function Remaining(total: nat, spent: Spent): Option<nat> {
    if spent.compactions == 0 then None else Some(if total >= spent.tokens then total - spent.tokens else 0)
  }

  ghost predicate WellSpent(spent: Spent) { spent.compactions == 0 ==> spent.tokens == 0 }

  lemma NextBudget(cfg: Config, st: State, w: World)
    requires Iterate(cfg, st, w).Continue?
    ensures var next := Iterate(cfg, st, w).state;
            var left := BudgetAfterCompaction(cfg, st, w);
            next.budgetLeft == match ReactiveOf(w, next)
                               case None => left
                               case Some(c) => Spend(cfg, left, c.contextTokens)
  {
    hide Response, Rewrite, AfterBoundary;
  }

  lemma SpendOne(cfg: Config, total: nat, spent: Spent, c: Option<Compaction>)
    requires cfg.taskBudget == Some(total) && WellSpent(spent)
    ensures Remaining(total, spent.Plus(One(c)))
            == match c case None => Remaining(total, spent) case Some(x) => Spend(cfg, Remaining(total, spent), x.contextTokens)
    ensures WellSpent(spent.Plus(One(c)))
  {
  }

  lemma CompactionBudget(cfg: Config, st: State, w: World, total: nat, spent: Spent)
    requires cfg.taskBudget == Some(total) && st.budgetLeft == Remaining(total, spent) && WellSpent(spent)
    ensures BudgetAfterCompaction(cfg, st, w) == Remaining(total, spent.Plus(One(w.compaction))) && WellSpent(spent.Plus(One(w.compaction)))
  {
    hide Spend, Remaining;
    SpendOne(cfg, total, spent, w.compaction);
  }

  lemma IterationBudget(cfg: Config, st: State, w: World, total: nat, spent: Spent)
    requires cfg.taskBudget == Some(total) && st.budgetLeft == Remaining(total, spent) && WellSpent(spent)
    requires Iterate(cfg, st, w).Continue?
    ensures var next := Iterate(cfg, st, w).state;
            next.budgetLeft == Remaining(total, Charge(spent, w, next)) && WellSpent(Charge(spent, w, next))
  {
    hide Iterate, Spend, Remaining, BudgetAfterCompaction, ReactiveOf, One, WellSpent;
    var next := Iterate(cfg, st, w).state;
    NextBudget(cfg, st, w);
    CompactionBudget(cfg, st, w, total, spent);
    SpendOne(cfg, total, spent.Plus(One(w.compaction)), ReactiveOf(w, next));
  }

  /** Task budget: however compactions are spread over a run, what remains is the
      total less all compacted context, never below zero, and unset before the first. */
  lemma {:induction false} TaskBudgetAddsUp(cfg: Config, st: State, worlds: seq<World>, total: nat, spent: Spent)
    requires cfg.taskBudget == Some(total) && st.budgetLeft == Remaining(total, spent) && WellSpent(spent)
    ensures Loop(cfg, st, worlds).state.budgetLeft == Remaining(total, CompactedAway(cfg, st, worlds, spent))
    decreases |worlds|
  {
    if worlds != [] && Iterate(cfg, st, worlds[0]).Continue? {
      var next := Iterate(cfg, st, worlds[0]).state;
      IterationBudget(cfg, st, worlds[0], total, spent);
      TaskBudgetAddsUp(cfg, next, worlds[1..], total, Charge(spent, worlds[0], next));
    }
  }

  /** From the start of a query nothing is spent, and the budget is not told to the model. */
  lemma TaskBudgetFromStart(cfg: Config, messages: seq<Message>, override: Option<nat>, worlds: seq<World>, total: nat)
    requires cfg.taskBudget == Some(total)
    ensures var st := Start(messages, override);
            var spent := CompactedAway(cfg, st, worlds, Spent(0, 0));
            Loop(cfg, st, worlds).state.budgetLeft ==
              if spent.compactions == 0 then None else Some(if total >= spent.tokens then total - spent.tokens else 0)
  {
    TaskBudgetAddsUp(cfg, Start(messages, override), worlds, total, Spent(0, 0));
  }

  lemma NextTurnCount(cfg: Config, st: State, w: World)
    requires Iterate(cfg, st, w).Continue?
    ensures var next := Iterate(cfg, st, w).state;
            && next.transition.Some?
            && next.turnCount == st.turnCount + (if next.transition == Some(NextTurn) then 1 else 0)
            && (cfg.maxTurns != 0 && st.turnCount <= cfg.maxTurns ==> next.turnCount <= cfg.maxTurns)
  {
    hide Response, Rewrite, AfterBoundary;
  }

  function ToolTurns(ts: seq<Transition>): nat {
    if ts == [] then 0 else (if ts[0].NextTurn? then 1 else 0) + ToolTurns(ts[1..])
  }

  /** Turn limit: the turn count is one more than the tool turns taken, and never exceeds a set limit. */
  lemma {:induction false} TurnLimit(cfg: Config, st: State, worlds: seq<World>)
    requires cfg.maxTurns != 0 ==> st.turnCount <= cfg.maxTurns
    ensures var end := Loop(cfg, st, worlds).state;
            && end.turnCount == st.turnCount + ToolTurns(Transitions(cfg, st, worlds))
            && (cfg.maxTurns != 0 ==> end.turnCount <= cfg.maxTurns)
    decreases |worlds|
  {
    if worlds != [] && Iterate(cfg, st, worlds[0]).Continue? {
      var next := Iterate(cfg, st, worlds[0]).state;
      NextTurnCount(cfg, st, worlds[0]);
      TurnLimit(cfg, next, worlds[1..]);
      assert Transitions(cfg, st, worlds) == [next.transition.value] + Transitions(cfg, next, worlds[1..]);
    }
  }
}
