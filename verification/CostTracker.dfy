/** What a session has cost, in total and by model, through nested usage, saving and restoring. */
module CostTracker {
  import opened Prelude

  type Model = string
  type SessionId = string

  /** Tokens and cost; also their sums. */
  datatype ModelUsage = ModelUsage(input: nat, output: nat, cacheRead: nat, cacheCreation: nat, webSearches: nat, cost: real) {
    function Plus(other: ModelUsage): ModelUsage {
      ModelUsage(input + other.input, output + other.output, cacheRead + other.cacheRead,
                 cacheCreation + other.cacheCreation, webSearches + other.webSearches, cost + other.cost)
    }
  }

  const ZERO := ModelUsage(0, 0, 0, 0, 0, 0.0)

  /** Usage of one response; an advisor consulted on the way has usage, and a price, of its own. */
  datatype Usage = Usage(
    input: nat, output: nat, cacheRead: Option<nat>, cacheCreation: Option<nat>, webSearches: Option<nat>,
    iterations: seq<Iteration>)

  datatype Iteration = Advisor(model: Model, cost: real, usage: Usage) | OtherIteration

  function OrZero(n: Option<nat>): nat { if n.Some? then n.value else 0 }

  /** The usage itself, without what is nested in it. */
  function Own(cost: real, u: Usage): ModelUsage {
    ModelUsage(u.input, u.output, OrZero(u.cacheRead), OrZero(u.cacheCreation), OrZero(u.webSearches), cost)
  }

  /** Everything in it, at any depth. */
  function Whole(cost: real, u: Usage): ModelUsage
    decreases u
  {
    Own(cost, u).Plus(WholeAll(u.iterations))
  }

  function WholeAll(its: seq<Iteration>): ModelUsage
    decreases its
  {
    if its == [] then ZERO
    else (if its[0].Advisor? then Whole(its[0].cost, its[0].usage) else ZERO).Plus(WholeAll(its[1..]))
  }

  type Usages = map<Model, ModelUsage>

  function Of(usages: Usages, model: Model): ModelUsage { if model in usages then usages[model] else ZERO }

  function AddTo(usages: Usages, model: Model, u: ModelUsage): Usages { usages[model := Of(usages, model).Plus(u)] }

  /** Everything in it, added under the models that used it. */
  function AddWhole(usages: Usages, model: Model, cost: real, u: Usage): Usages
    decreases u
  {
    AddAll(AddTo(usages, model, Own(cost, u)), u.iterations)
  }

  function AddAll(usages: Usages, its: seq<Iteration>): Usages
    decreases its
  {
    if its == [] then usages
    else AddAll(if its[0].Advisor? then AddWhole(usages, its[0].model, its[0].cost, its[0].usage) else usages, its[1..])
  }

  ghost function Sum(usages: Usages): ModelUsage {
    if usages == map[] then ZERO
    else
      var model :| model in usages;
      usages[model].Plus(Sum(usages - {model}))
  }

  // ---- The session's state and the project's saved one ----

  datatype Counters = Counters(apiDuration: nat, apiDurationWithoutRetries: nat, toolDuration: nat, linesAdded: nat, linesRemoved: nat)

  const NO_COUNTERS := Counters(0, 0, 0, 0, 0)

  /** What the project configuration holds of the last saved session; older ones may lack parts. */
  datatype Config = Config(
    lastSessionId: Option<SessionId>, lastCost: Option<real>, lastModelUsage: Option<Usages>, lastCounters: Option<Counters>)

  datatype State = State(
    totalCost: real,
    modelUsage: Usages,
    counters: Counters,
    outputTokensAtTurnStart: int,
    sessionId: SessionId,
    config: Config)

  datatype Op =
    | Add(cost: real, usage: Usage, model: Model)
    | Count(counters: Counters)
    | Snapshot
    | Save
    | Restore(session: SessionId)
    | Reset
    | Switch(session: SessionId)

  predicate Restores(st: State, op: Op) { op.Restore? && st.config.lastSessionId == Some(op.session) }

  ghost function Next(st: State, op: Op): State {
    match op
    case Add(cost, usage, model) =>
      st.(totalCost := st.totalCost + Whole(cost, usage).cost, modelUsage := AddWhole(st.modelUsage, model, cost, usage))
    case Count(c) => st.(counters := c)
    case Snapshot => st.(outputTokensAtTurnStart := Sum(st.modelUsage).output)
    case Save => st.(config := Config(Some(st.sessionId), Some(st.totalCost), Some(st.modelUsage), Some(st.counters)))
    case Restore(session) =>
      if !Restores(st, op) then st
      else
        st.(totalCost := if st.config.lastCost.Some? then st.config.lastCost.value else 0.0,
            modelUsage := if st.config.lastModelUsage.Some? then st.config.lastModelUsage.value else st.modelUsage,
            counters := if st.config.lastCounters.Some? then st.config.lastCounters.value else NO_COUNTERS)
    case Reset => st.(totalCost := 0.0, modelUsage := map[], counters := NO_COUNTERS)
    case Switch(session) => st.(sessionId := session)
  }

  class Session {
    var totalCost: real
    var modelUsage: Usages
    var counters: Counters
    var outputTokensAtTurnStart: int
    var sessionId: SessionId
    var config: Config

    function Now(): State
      reads this
    {
      State(totalCost, modelUsage, counters, outputTokensAtTurnStart, sessionId, config)
    }

    /** Adds to the model's record. */
    method AddToTotalModelUsage(cost: real, usage: Usage, model: Model) returns (m: ModelUsage)
      ensures m == Of(modelUsage, model).Plus(Own(cost, usage))
    {
      m := if model in modelUsage then modelUsage[model] else ZERO;
      m := m.(input := m.input + usage.input, output := m.output + usage.output);
      m := m.(cacheRead := m.cacheRead + OrZero(usage.cacheRead), cacheCreation := m.cacheCreation + OrZero(usage.cacheCreation));
      m := m.(webSearches := m.webSearches + OrZero(usage.webSearches), cost := m.cost + cost);
    }

    method AddToTotalCostState(cost: real, m: ModelUsage, model: Model)
      modifies this
      ensures Now() == old(Now()).(totalCost := old(totalCost) + cost, modelUsage := old(modelUsage)[model := m])
    {
      modelUsage := modelUsage[model := m];
      totalCost := totalCost + cost;
    }

    /** Adds the usage and, recursively, every advisor's; returns what it all cost. */
    method AddToTotalSessionCost(cost: real, usage: Usage, model: Model) returns (whole: real)
      modifies this
      ensures Now() == Next(old(Now()), Add(cost, usage, model))
      ensures whole == Whole(cost, usage).cost == totalCost - old(totalCost)
      decreases usage
    {
      var m := AddToTotalModelUsage(cost, usage, model);
      AddToTotalCostState(cost, m, model);
      whole := cost;
      var its := usage.iterations;
      ghost var before := Now();
      for i := 0 to |its|
        invariant AddAll(modelUsage, its[i..]) == AddAll(before.modelUsage, its)
        invariant whole + WholeAll(its[i..]).cost == cost + WholeAll(its).cost
        invariant Now() == before.(totalCost := before.totalCost + (whole - cost), modelUsage := modelUsage)
      {
        assert its[i..][0] == its[i] && its[i..][1..] == its[i + 1..];
        if its[i].Advisor? {
          var advisorCost := AddToTotalSessionCost(its[i].cost, its[i].usage, its[i].model);
          whole := whole + advisorCost;
        }
      }
      assert its[|its|..] == [] && its[0..] == its;
    }

    method SaveCurrentSessionCosts()
      modifies this
      ensures Now() == Next(old(Now()), Save)
    {
      config := Config(Some(sessionId), Some(totalCost), Some(modelUsage), Some(counters));
    }

    method RestoreCostStateForSession(session: SessionId) returns (restored: bool)
      modifies this
      ensures restored == Restores(old(Now()), Restore(session)) && Now() == Next(old(Now()), Restore(session))
    {
      if config.lastSessionId != Some(session) { return false; }
      totalCost := if config.lastCost.Some? then config.lastCost.value else 0.0;
      counters := if config.lastCounters.Some? then config.lastCounters.value else NO_COUNTERS;
      if config.lastModelUsage.Some? {
        modelUsage := config.lastModelUsage.value;
      }
      return true;
    }

    method ResetCostState()
      modifies this
      ensures Now() == Next(old(Now()), Reset)
    {
      totalCost, modelUsage, counters := 0.0, map[], NO_COUNTERS;
    }

    /** The sum over all models, in whatever order they are visited. */
    method GetTotalOutputTokens() returns (tokens: nat)
      ensures tokens == Sum(modelUsage).output
    {
      tokens := 0;
      var rest := modelUsage;
      while rest.Keys != {}
        invariant tokens + Sum(rest).output == Sum(modelUsage).output
        decreases |rest|
      {
        var model :| model in rest.Keys;
        SumWithout(rest, model);
        tokens := tokens + rest[model].output;
        rest := rest - {model};
      }
    }

    method SnapshotOutputTokensForTurn()
      modifies this
      ensures Now() == Next(old(Now()), Snapshot)
    {
      outputTokensAtTurnStart := GetTotalOutputTokens();
    }

    method GetTurnOutputTokens() returns (tokens: int)
      ensures tokens == TurnOutput(Now())
    {
      tokens := GetTotalOutputTokens();
      tokens := tokens - outputTokensAtTurnStart;
    }
  }

  ghost function TurnOutput(st: State): int { Sum(st.modelUsage).output - st.outputTokensAtTurnStart }

  // ---- Sums ----

  lemma PlusAssociates(a: ModelUsage, b: ModelUsage, c: ModelUsage)
    ensures a.Plus(b).Plus(c) == a.Plus(b.Plus(c))
  {
  }

  lemma PlusZero(a: ModelUsage)
    ensures ZERO.Plus(a) == a && a.Plus(ZERO) == a
  {
  }

  lemma PlusSwaps(a: ModelUsage, b: ModelUsage, c: ModelUsage)
    ensures a.Plus(b.Plus(c)) == b.Plus(a.Plus(c))
  {
  }

  lemma {:induction false} SumWithout(usages: Usages, model: Model)
    requires model in usages
    ensures Sum(usages) == usages[model].Plus(Sum(usages - {model}))
    decreases |usages|
  {
    hide ModelUsage.Plus;
    var first :| first in usages && Sum(usages) == usages[first].Plus(Sum(usages - {first}));
    if first != model {
      SumWithout(usages - {first}, model);
      SumWithout(usages - {model}, first);
      assert usages - {first} - {model} == usages - {model} - {first};
      PlusSwaps(usages[first], usages[model], Sum(usages - {first} - {model}));
    }
  }

  lemma SumAdd(usages: Usages, model: Model, u: ModelUsage)
    ensures Sum(AddTo(usages, model, u)) == Sum(usages).Plus(u)
  {
    var added := AddTo(usages, model, u);
    SumWithout(added, model);
    if model in usages {
      SumWithout(usages, model);
      assert added - {model} == usages - {model};
    } else {
      assert added - {model} == usages;
    }
  }

  /** Whatever the nesting, the sum over all models grows by exactly the whole usage. */
  lemma {:induction false} SumAddWhole(usages: Usages, model: Model, cost: real, u: Usage)
    ensures Sum(AddWhole(usages, model, cost, u)) == Sum(usages).Plus(Whole(cost, u))
    decreases u
  {
    hide ModelUsage.Plus;
    SumAdd(usages, model, Own(cost, u));
    SumAddAll(AddTo(usages, model, Own(cost, u)), u.iterations);
    PlusAssociates(Sum(usages), Own(cost, u), WholeAll(u.iterations));
  }

  lemma {:induction false} SumAddAll(usages: Usages, its: seq<Iteration>)
    ensures Sum(AddAll(usages, its)) == Sum(usages).Plus(WholeAll(its))
    decreases its
  {
    hide ModelUsage.Plus;
    if its == [] {
      PlusZero(Sum(usages));
    } else if its[0].Advisor? {
      SumAddWhole(usages, its[0].model, its[0].cost, its[0].usage);
      SumAddAll(AddWhole(usages, its[0].model, its[0].cost, its[0].usage), its[1..]);
      PlusAssociates(Sum(usages), Whole(its[0].cost, its[0].usage), WholeAll(its[1..]));
    } else {
      SumAddAll(usages, its[1..]);
      PlusZero(WholeAll(its[1..]));
    }
  }

  /** The part of a usage one model is responsible for, at any depth. */
  function Share(of: Model, model: Model, cost: real, u: Usage): ModelUsage
    decreases u
  {
    (if of == model then Own(cost, u) else ZERO).Plus(ShareAll(of, u.iterations))
  }

  function ShareAll(of: Model, its: seq<Iteration>): ModelUsage
    decreases its
  {
    if its == [] then ZERO
    else (if its[0].Advisor? then Share(of, its[0].model, its[0].cost, its[0].usage) else ZERO).Plus(ShareAll(of, its[1..]))
  }

  /** Each model is charged its own share and nothing else. */
  lemma {:induction false} EachModelItsShare(usages: Usages, of: Model, model: Model, cost: real, u: Usage)
    ensures Of(AddWhole(usages, model, cost, u), of) == Of(usages, of).Plus(Share(of, model, cost, u))
    decreases u
  {
    hide ModelUsage.Plus;
    SharesAll(AddTo(usages, model, Own(cost, u)), of, u.iterations);
    if of == model {
      PlusAssociates(Of(usages, of), Own(cost, u), ShareAll(of, u.iterations));
    } else {
      PlusZero(ShareAll(of, u.iterations));
    }
  }

  lemma {:induction false} SharesAll(usages: Usages, of: Model, its: seq<Iteration>)
    ensures Of(AddAll(usages, its), of) == Of(usages, of).Plus(ShareAll(of, its))
    decreases its
  {
    hide ModelUsage.Plus, Of;
    if its == [] {
      PlusZero(Of(usages, of));
    } else if its[0].Advisor? {
      EachModelItsShare(usages, of, its[0].model, its[0].cost, its[0].usage);
      SharesAll(AddWhole(usages, its[0].model, its[0].cost, its[0].usage), of, its[1..]);
      PlusAssociates(Of(usages, of), Share(of, its[0].model, its[0].cost, its[0].usage), ShareAll(of, its[1..]));
    } else {
      SharesAll(usages, of, its[1..]);
      PlusZero(ShareAll(of, its[1..]));
    }
  }

  // ---- Number by number ----

  datatype Field = Input | Output | CacheRead | CacheCreation | WebSearches

  /** A number as the model reports it; one it leaves out is zero. */
  function Reported(of: Field, u: Usage): nat {
    match of
    case Input => u.input
    case Output => u.output
    case CacheRead => if u.cacheRead.Some? then u.cacheRead.value else 0
    case CacheCreation => if u.cacheCreation.Some? then u.cacheCreation.value else 0
    case WebSearches => if u.webSearches.Some? then u.webSearches.value else 0
  }

  /** The same number in the records. */
  function Recorded(of: Field, m: ModelUsage): nat {
    match of
    case Input => m.input
    case Output => m.output
    case CacheRead => m.cacheRead
    case CacheCreation => m.cacheCreation
    case WebSearches => m.webSearches
  }

  function Total(of: Field, u: Usage): nat
    decreases u
  {
    Reported(of, u) + TotalAll(of, u.iterations)
  }

  function TotalAll(of: Field, its: seq<Iteration>): nat
    decreases its
  {
    if its == [] then 0
    else (if its[0].Advisor? then Total(of, its[0].usage) else 0) + TotalAll(of, its[1..])
  }

  /** What all advisors cost. */
  function Prices(its: seq<Iteration>): real
    decreases its
  {
    if its == [] then 0.0
    else (if its[0].Advisor? then its[0].cost + Prices(its[0].usage.iterations) else 0.0) + Prices(its[1..])
  }

  lemma PlusIs(of: Field, a: ModelUsage, b: ModelUsage)
    ensures Recorded(of, a.Plus(b)) == Recorded(of, a) + Recorded(of, b) && a.Plus(b).cost == a.cost + b.cost
    ensures Recorded(of, ZERO) == 0 && ZERO.cost == 0.0
  {
  }

  lemma OwnIs(of: Field, cost: real, u: Usage)
    ensures Recorded(of, Own(cost, u)) == Reported(of, u) && Own(cost, u).cost == cost
  {
  }

  lemma {:induction false} WholeIs(of: Field, cost: real, u: Usage)
    ensures Recorded(of, Whole(cost, u)) == Total(of, u) && Whole(cost, u).cost == cost + Prices(u.iterations)
    decreases u
  {
    hide ModelUsage.Plus, Recorded, Reported, Own, WholeAll, TotalAll, Prices;
    OwnIs(of, cost, u);
    WholeAllIs(of, u.iterations);
    PlusIs(of, Own(cost, u), WholeAll(u.iterations));
  }

  lemma {:induction false} WholeAllIs(of: Field, its: seq<Iteration>)
    ensures Recorded(of, WholeAll(its)) == TotalAll(of, its) && WholeAll(its).cost == Prices(its)
    decreases its
  {
    hide ModelUsage.Plus, Recorded, Reported, Own, Whole, Total;
    PlusIs(of, ZERO, ZERO);
    if its != [] {
      var first := if its[0].Advisor? then Whole(its[0].cost, its[0].usage) else ZERO;
      if its[0].Advisor? { WholeIs(of, its[0].cost, its[0].usage); }
      WholeAllIs(of, its[1..]);
      PlusIs(of, first, WholeAll(its[1..]));
    }
  }

  /** Every number summed over all models grows by what the usage and the usages nested in it report
      of just that number, and the cost by its own and all advisors' prices. */
  lemma EachNumberGrows(of: Field, usages: Usages, model: Model, cost: real, u: Usage)
    ensures var before, after := Sum(usages), Sum(AddWhole(usages, model, cost, u));
            && Recorded(of, after) == Recorded(of, before) + Total(of, u)
            && after.cost == before.cost + cost + Prices(u.iterations)
  {
    SumAddWhole(usages, model, cost, u);
    WholeIs(of, cost, u);
  }

  // ---- Conservation ----

  /** The total is the sum of what the models cost. */
  ghost predicate Balanced(st: State) { st.totalCost == Sum(st.modelUsage).cost }

  /** What is saved was balanced when it was saved, or nothing has been. */
  ghost predicate SavedBalanced(c: Config) {
    c.lastSessionId.Some? ==> c.lastCost.Some? && c.lastModelUsage.Some? && c.lastCost.value == Sum(c.lastModelUsage.value).cost
  }

  lemma OpKeepsBalance(st: State, op: Op)
    requires Balanced(st) && SavedBalanced(st.config)
    ensures Balanced(Next(st, op)) && SavedBalanced(Next(st, op).config)
  {
    if op.Add? {
      SumAddWhole(st.modelUsage, op.model, op.cost, op.usage);
    }
  }

  /** With a configuration from elsewhere, a restore ends balanced exactly if the models' costs it
      leaves in place, saved or current, add up to the saved total. */
  lemma RestoreBalances(st: State, session: SessionId)
    requires Restores(st, Restore(session))
    ensures var c := st.config;
            Balanced(Next(st, Restore(session))) <==>
            (if c.lastCost.Some? then c.lastCost.value else 0.0)
            == Sum(if c.lastModelUsage.Some? then c.lastModelUsage.value else st.modelUsage).cost
    ensures st.config.lastCounters == None ==> Next(st, Restore(session)).counters == Counters(0, 0, 0, 0, 0)
  {
  }

  ghost function Run(st: State, ops: seq<Op>): State
    decreases |ops|
  {
    if ops == [] then st else Run(Next(st, ops[0]), ops[1..])
  }

  /** Cost conservation over any sequence of operations: the total always equals the sum of the per-model costs. */
  lemma {:induction false} RunKeepsBalance(st: State, ops: seq<Op>)
    requires Balanced(st) && SavedBalanced(st.config)
    ensures Balanced(Run(st, ops)) && SavedBalanced(Run(st, ops).config)
    decreases |ops|
  {
    if ops != [] {
      OpKeepsBalance(st, ops[0]);
      RunKeepsBalance(Next(st, ops[0]), ops[1..]);
    }
  }

  // ---- The turn's tokens ----

  /** Output tokens added since the last snapshot, and how far resets and restores have moved the sum since then. */
  datatype Turn = Turn(added: nat, moved: int)

  ghost function Watch(t: Turn, st: State, op: Op): Turn {
    match op
    case Add(_, usage, _) => t.(added := t.added + Total(Output, usage))
    case Snapshot => Turn(0, 0)
    case Restore(_) => t.(moved := t.moved + Sum(Next(st, op).modelUsage).output - Sum(st.modelUsage).output)
    case Reset => t.(moved := t.moved - Sum(st.modelUsage).output)
    case _ => t
  }

  ghost function WatchAll(t: Turn, st: State, ops: seq<Op>): Turn
    decreases |ops|
  {
    if ops == [] then t else WatchAll(Watch(t, st, ops[0]), Next(st, ops[0]), ops[1..])
  }

  lemma WatchOne(t: Turn, st: State, op: Op)
    requires TurnOutput(st) == t.added + t.moved
    ensures var t' := Watch(t, st, op); TurnOutput(Next(st, op)) == t'.added + t'.moved
  {
    if op.Add? {
      EachNumberGrows(Output, st.modelUsage, op.model, op.cost, op.usage);
    }
  }

  /** Turn tokens, for all sequences: the output added since the snapshot, exactly as long as
      resets and restores in between have moved the sum by nothing. */
  lemma {:induction false} TurnCountsOutput(t: Turn, st: State, ops: seq<Op>)
    requires TurnOutput(st) == t.added + t.moved
    ensures var end := WatchAll(t, st, ops);
            && TurnOutput(Run(st, ops)) == end.added + end.moved
            && (TurnOutput(Run(st, ops)) == end.added <==> end.moved == 0)
    decreases |ops|
  {
    if ops != [] {
      WatchOne(t, st, ops[0]);
      TurnCountsOutput(Watch(t, st, ops[0]), Next(st, ops[0]), ops[1..]);
    }
  }

  predicate Plain(op: Op) { !op.Reset? && !op.Restore? }

  lemma {:induction false} PlainMovesNothing(t: Turn, st: State, ops: seq<Op>)
    requires t.moved == 0 && forall op <- ops :: Plain(op)
    ensures WatchAll(t, st, ops).moved == 0
    decreases |ops|
  {
    if ops != [] {
      assert ops[0] in ops;
      PlainMovesNothing(Watch(t, st, ops[0]), Next(st, ops[0]), ops[1..]);
    }
  }

  /** From a snapshot on, without reset or restore, the turn's tokens are those added. */
  lemma TurnTokensAfterSnapshot(st: State, ops: seq<Op>)
    requires forall op <- ops :: Plain(op)
    ensures TurnOutput(Run(Next(st, Snapshot), ops)) == WatchAll(Turn(0, 0), Next(st, Snapshot), ops).added
  {
    PlainMovesNothing(Turn(0, 0), Next(st, Snapshot), ops);
    TurnCountsOutput(Turn(0, 0), Next(st, Snapshot), ops);
  }

  /** A reset without a new snapshot leaves the turn counting below zero, though all else starts from nothing. */
  lemma ResetMidTurn(st: State)
    ensures var reset := Next(Next(st, Snapshot), Reset);
            && TurnOutput(reset) == 0 - Sum(st.modelUsage).output
            && reset.totalCost == 0.0 && reset.modelUsage == map[] && reset.counters == Counters(0, 0, 0, 0, 0)
            && reset.config == st.config && reset.sessionId == st.sessionId
  {
  }

  // ---- Save and restore ----

  lemma {:induction false} SavedStays(st: State, ops: seq<Op>)
    requires forall op <- ops :: !op.Save?
    ensures Run(st, ops).config == st.config
    decreases |ops|
  {
    if ops != [] {
      assert ops[0] in ops;
      SavedStays(Next(st, ops[0]), ops[1..]);
    }
  }

  /** Round trip. Whatever other sessions do after a save, short of saving, restoring the saved session brings back
      its total, its per-model usage and its counters; a restore of any other session changes nothing. */
  lemma SaveThenRestore(st: State, ops: seq<Op>, session: SessionId)
    requires forall op <- ops :: !op.Save?
    ensures forall x :: Next(Next(st, Switch(x)), Save).config.lastSessionId == Some(x)
    ensures var later := Run(Next(st, Save), ops);
            var restored := Next(later, Restore(session));
            && Restores(later, Restore(session)) == (session == st.sessionId)
            && (session == st.sessionId ==>
                  restored.totalCost == st.totalCost && restored.modelUsage == st.modelUsage && restored.counters == st.counters)
            && (session != st.sessionId ==> restored == later)
  {
    SavedStays(Next(st, Save), ops);
  }
}
