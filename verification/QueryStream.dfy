/** What a response is made of, told from the stream alone. */
module QueryStream {
  import opened Prelude
  import opened QueryLoop

  // ---- What is in a stream ----

  function Contents(items: seq<StreamItem>): seq<StreamItem> {
    if items == [] then []
    else Contents(items[..|items| - 1]) + if items[|items| - 1].FallbackSignal? then [] else [items[|items| - 1]]
  }

  function AssistantsOf(items: seq<StreamItem>): seq<Message> {
    if items == [] then []
    else
      var last := items[|items| - 1];
      AssistantsOf(items[..|items| - 1]) + if last.Streamed? && last.message.Assistant? then [last.message] else []
  }

  /** Something arrives after a signal to fall back. */
  predicate FallsBack(items: seq<StreamItem>) {
    exists i, j :: 0 <= i < j < |items| && items[i].FallbackSignal? && !items[j].FallbackSignal?
  }

  /** The assistant messages the loop is left with: all of them, or after a fallback only one that came last. */
  function Surviving(items: seq<StreamItem>): seq<Message> {
    var c := Contents(items);
    if FallsBack(items) && c != [] then AssistantsOf([c[|c| - 1]]) else AssistantsOf(c)
  }

  function UseIds(assistants: seq<Message>): seq<ToolId> {
    if assistants == [] then []
    else
      var last := assistants[|assistants| - 1];
      UseIds(assistants[..|assistants| - 1]) + if last.Assistant? then last.toolUses else []
  }

  predicate UsesTools(assistants: seq<Message>) {
    exists i :: 0 <= i < |assistants| && assistants[i].Assistant? && assistants[i].toolUses != []
  }

  /** What the consumer sees of the contents. */
  function Display(cfg: Config, w: World, items: seq<StreamItem>): seq<Yield> {
    if items == [] then []
    else
      Display(cfg, w, items[..|items| - 1]) +
      match items[|items| - 1]
      case FallbackSignal => []
      case Event(b) => [StreamEvent(b)]
      case Streamed(m) => if Withheld(cfg, w, m) then [] else [Out(m)]
  }

  function Withdrawn(ys: seq<Yield>): seq<Message> {
    if ys == [] then []
    else Withdrawn(ys[..|ys| - 1]) + if ys[|ys| - 1].Tombstone? then [ys[|ys| - 1].message] else []
  }

  /** What is shown, without the tombstones. */
  function Untombed(ys: seq<Yield>): seq<Yield> {
    if ys == [] then []
    else Untombed(ys[..|ys| - 1]) + if ys[|ys| - 1].Tombstone? then [] else [ys[|ys| - 1]]
  }

  // ---- Filters and concatenation ----

  lemma {:induction false} FiltersConcat(a: seq<Yield>, b: seq<Yield>)
    ensures Withdrawn(a + b) == Withdrawn(a) + Withdrawn(b) && Untombed(a + b) == Untombed(a) + Untombed(b)
    decreases |b|
  {
    if b == [] {
      assert a + b == a;
    } else {
      assert (a + b)[..|a + b| - 1] == a + b[..|b| - 1];
      FiltersConcat(a, b[..|b| - 1]);
    }
  }

  lemma {:induction false} FiltersOfTombstones(messages: seq<Message>)
    ensures Withdrawn(Tombstones(messages)) == messages && Untombed(Tombstones(messages)) == []
  {
    if messages != [] {
      var init := messages[..|messages| - 1];
      FiltersOfTombstones(init);
      assert Tombstones(messages)[..|init|] == Tombstones(init);
    }
  }

  lemma {:induction false} FiltersOfOthers(ys: seq<Yield>)
    requires forall i :: 0 <= i < |ys| ==> !ys[i].Tombstone?
    ensures Withdrawn(ys) == [] && Untombed(ys) == ys
  {
    if ys != [] {
      FiltersOfOthers(ys[..|ys| - 1]);
    }
  }

  lemma AddFilters(a: seq<Yield>, b: seq<Yield>)
    requires forall i :: 0 <= i < |b| ==> !b[i].Tombstone?
    ensures Withdrawn(a + b) == Withdrawn(a) && Untombed(a + b) == Untombed(a) + b
  {
    FiltersConcat(a, b);
    FiltersOfOthers(b);
  }

  // ---- One attempt ----

  lemma DropFilters(s: Stream)
    ensures var d := DropOrphans(s);
            && Untombed(d.shown) == Untombed(s.shown)
            && Withdrawn(d.shown) + d.assistants == Withdrawn(s.shown) + s.assistants
  {
    FiltersConcat(s.shown, Tombstones(s.assistants));
    FiltersOfTombstones(s.assistants);
  }

  /** What a stream holds after some items. */
  ghost predicate HoldsRight(items: seq<StreamItem>, s: Stream) {
    && (s.fellBack <==> FallbackSignal in items)
    && s.assistants == Surviving(items)
    && s.toolBlocks == UseIds(s.assistants) && (s.needsFollowUp <==> UsesTools(s.assistants))
  }

  /** What a stream has shown after some items. */
  ghost predicate ShowsRight(cfg: Config, w: World, before: seq<Yield>, items: seq<StreamItem>, s: Stream) {
    && Untombed(s.shown) == Untombed(before) + Display(cfg, w, items)
    && Withdrawn(s.shown) + s.assistants == Withdrawn(before) + AssistantsOf(items)
  }

  lemma UseIdsOne(assistants: seq<Message>, m: Message)
    requires m.Assistant?
    ensures UseIds(assistants + [m]) == UseIds(assistants) + m.toolUses
    ensures UsesTools(assistants + [m]) <==> UsesTools(assistants) || m.toolUses != []
  {
    var all := assistants + [m];
    assert all[..|assistants|] == assistants;
    if UsesTools(assistants) {
      var i :| 0 <= i < |assistants| && assistants[i].Assistant? && assistants[i].toolUses != [];
      assert all[i] == assistants[i];
    }
    if m.toolUses != [] { assert all[|assistants|] == m; }
  }

  lemma SurvivingSignal(items: seq<StreamItem>)
    ensures Surviving(items + [FallbackSignal]) == Surviving(items)
    ensures AssistantsOf(items + [FallbackSignal]) == AssistantsOf(items)
  {
    var more := items + [FallbackSignal];
    assert more[..|items|] == items;
    assert Contents(more) == Contents(items);
    assert FallsBack(items) <==> FallsBack(more) by {
      if i, j :| 0 <= i < j < |items| && items[i].FallbackSignal? && !items[j].FallbackSignal? {
        assert more[i].FallbackSignal? && !more[j].FallbackSignal?;
      }
      if i, j :| 0 <= i < j < |more| && more[i].FallbackSignal? && !more[j].FallbackSignal? {
        assert items[i].FallbackSignal? && !items[j].FallbackSignal?;
      }
    }
  }

  lemma SurvivingContent(items: seq<StreamItem>, x: StreamItem)
    requires !x.FallbackSignal?
    ensures Surviving(items + [x]) == if FallbackSignal in items then AssistantsOf([x]) else Surviving(items) + AssistantsOf([x])
    ensures AssistantsOf(items + [x]) == AssistantsOf(items) + AssistantsOf([x])
  {
    var more := items + [x];
    assert more[..|items|] == items && [x][..0] == [];
    assert Contents(more) == Contents(items) + [x];
    assert (Contents(items) + [x])[..|Contents(items)|] == Contents(items);
    if FallbackSignal in items {
      var i :| 0 <= i < |items| && items[i] == FallbackSignal;
      assert more[i].FallbackSignal? && more[|items|] == x;
      assert FallsBack(more);
    } else {
      assert !FallsBack(more) && !FallsBack(items);
    }
  }

  lemma ConsumeHolds(cfg: Config, w: World, items: seq<StreamItem>, s: Stream, x: StreamItem)
    requires HoldsRight(items, s)
    ensures HoldsRight(items + [x], Consume(cfg, w, s, x))
  {
    hide Withheld, Tombstones;
    if x.FallbackSignal? {
      SurvivingSignal(items);
    } else {
      SurvivingContent(items, x);
      assert [x][..0] == [];
      assert UseIds([]) == [] && !UsesTools([]);
      assert AssistantsOf([x]) == if x.Streamed? && x.message.Assistant? then [x.message] else [];
      hide Surviving, AssistantsOf, UseIds, UsesTools;
      var d := DropOrphans(s);
      if x.Streamed? && x.message.Assistant? {
        UseIdsOne(d.assistants, x.message);
      }
    }
  }

  lemma ConsumeShows(cfg: Config, w: World, before: seq<Yield>, items: seq<StreamItem>, s: Stream, x: StreamItem)
    requires ShowsRight(cfg, w, before, items, s)
    ensures ShowsRight(cfg, w, before, items + [x], Consume(cfg, w, s, x))
  {
    hide Withheld, DropOrphans, Untombed, Withdrawn;
    assert (items + [x])[..|items|] == items;
    var d := DropOrphans(s);
    DropFilters(s);
    match x {
      case FallbackSignal => assert Display(cfg, w, items) + [] == Display(cfg, w, items);
      case Event(b) => AddFilters(d.shown, [StreamEvent(b)]);
      case Streamed(m) =>
        AddFilters(d.shown, if Withheld(cfg, w, m) then [] else [Out(m)]);
        assert (Withdrawn(d.shown) + d.assistants) + [m] == Withdrawn(d.shown) + (d.assistants + [m]);
    }
  }

  lemma NothingTells(cfg: Config, w: World, before: seq<Yield>)
    ensures HoldsRight([], Fresh(before)) && ShowsRight(cfg, w, before, [], Fresh(before))
  {
    hide Withdrawn, Untombed;
    assert Untombed(before) + [] == Untombed(before);
    assert Withdrawn(before) + [] == Withdrawn(before);
  }

  /** One attempt, whatever it streams. It is left with the surviving assistant messages and their tool uses; the
      consumer has seen, besides tombstones, the contents in order; and the
      messages withdrawn, followed by those left, are all that were streamed, in order. */
  lemma {:induction false} AttemptTells(cfg: Config, w: World, before: seq<Yield>, items: seq<StreamItem>)
    ensures var s := ConsumeAll(cfg, w, Fresh(before), items);
            HoldsRight(items, s) && ShowsRight(cfg, w, before, items, s)
    decreases |items|
  {
    hide Consume, HoldsRight, ShowsRight;
    if items == [] {
      NothingTells(cfg, w, before);
    } else {
      var init, x := items[..|items| - 1], items[|items| - 1];
      AttemptTells(cfg, w, before, init);
      ConsumeHolds(cfg, w, init, ConsumeAll(cfg, w, Fresh(before), init), x);
      ConsumeShows(cfg, w, before, init, ConsumeAll(cfg, w, Fresh(before), init), x);
      assert init + [x] == items;
    }
  }

  // ---- The whole response ----

  /** A result for every use, in order. */
  lemma {:induction false} MissingResultsAnswer(assistants: seq<Message>, why: Body)
    ensures MissingResults(assistants, why) == Answers(UseIds(assistants), why)
  {
    if assistants != [] {
      MissingResultsAnswer(assistants[..|assistants| - 1], why);
    }
  }

  /** The attempts before the last: each is seen, its surviving uses are answered, and the switch is announced. */
  function AttemptsShow(cfg: Config, w: World, k: nat): seq<Yield>
    requires k <= |w.fallbacks|
  {
    if k == 0 then []
    else
      AttemptsShow(cfg, w, k - 1) + (Display(cfg, w, w.fallbacks[k - 1])
      + (Answers(UseIds(Surviving(w.fallbacks[k - 1])), MODEL_FALLBACK) + [Out(System(SWITCHED_MODEL, false))]))
  }

  lemma {:induction false} FallbacksTell(cfg: Config, w: World, k: nat, before: seq<Yield>)
    requires k <= |w.fallbacks|
    ensures Untombed(AfterFallbacks(cfg, w, k, before)) == Untombed(before) + AttemptsShow(cfg, w, k)
  {
    hide ConsumeAll, Display, Surviving, UseIds, UsesTools, Withdrawn, Untombed;
    if k > 0 {
      FallbacksTell(cfg, w, k - 1, before);
      var items := w.fallbacks[k - 1];
      var s := ConsumeAll(cfg, w, Fresh(AfterFallbacks(cfg, w, k - 1, before)), items);
      AttemptTells(cfg, w, AfterFallbacks(cfg, w, k - 1, before), items);
      MissingResultsAnswer(s.assistants, MODEL_FALLBACK);
      var close := Answers(UseIds(s.assistants), MODEL_FALLBACK) + [Out(System(SWITCHED_MODEL, false))];
      assert AfterFallbacks(cfg, w, k, before) == s.shown + close;
      AddFilters(s.shown, close);
    }
  }

  /** The response, through any attempts and fallbacks, told from what was streamed. */
  lemma ResponseTells(cfg: Config, w: World)
    ensures var s := Response(cfg, w, Opening(w));
            && s.assistants == Surviving(w.items)
            && (s.needsFollowUp <==> UsesTools(Surviving(w.items)))
            && s.toolBlocks == UseIds(Surviving(w.items))
            && Untombed(s.shown) == Opening(w) + (AttemptsShow(cfg, w, |w.fallbacks|) + Display(cfg, w, w.items))
  {
    hide ConsumeAll, Display, Surviving, UseIds, UsesTools, Withdrawn, Untombed;
    var before := AfterFallbacks(cfg, w, |w.fallbacks|, Opening(w));
    FallbacksTell(cfg, w, |w.fallbacks|, Opening(w));
    AttemptTells(cfg, w, before, w.items);
    FiltersOfOthers(Opening(w));
  }
}
