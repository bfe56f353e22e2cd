/** One conversation on top of the query loop: two message stores that must agree
    through compaction, and exactly one result per submitted message. */
module QueryEngine {
  import opened Prelude

  type ToolId = string

  datatype Block = Text | Thinking | OtherBlock | NoBlock

  datatype AttachmentKind = StructuredOutput(data: nat) | MaxTurnsReached(turnCount: nat) | QueuedCommand | OtherAttachment

  datatype Subtype = CompactBoundary(metadata: bool) | ApiError | OtherSystem

  /** `outputCalls` counts calls of the structured-output tool; `toolResultsOnly` says that a
      user message is a non-empty list of tool results. */
  datatype Message =
    | Assistant(uuid: nat, stopReason: Option<string>, lastBlock: Block, isApiError: bool, outputCalls: nat, toolUses: seq<ToolId>)
    | User(uuid: nat, toolResultsOnly: bool, toolResults: seq<ToolId>)
    | Progress(uuid: nat)
    | Attachment(uuid: nat, kind: AttachmentKind)
    | System(uuid: nat, subtype: Subtype)

  datatype Event =
    | Sent(message: Message)
    | Tombstone
    | RequestStart
    | StreamEvent(stopReason: Option<string>)  // the stop reason of a message delta, if it carries one
    | ToolUseSummary(uuid: nat)

  /** An event of the query, and whether the total cost has reached the budget once it is handled. */
  datatype Arrival = Arrival(event: Event, overBudget: bool)

  datatype ResultKind = Success | ErrorMaxTurns | ErrorMaxBudget | ErrorStructuredOutput | ErrorDuringExecution

  datatype Output =
    | Init | Ack(uuid: nat) | Replay(uuid: nat) | Normalized(message: Message) | Partial | Boundary(uuid: nat) | ApiRetry(uuid: nat)
    | Summary(uuid: nat) | Result(kind: ResultKind, isError: bool, numTurns: int, stopReason: Option<string>)

  datatype Options = Options(
    persist: bool,          // session persistence
    partial: bool,          // includePartialMessages
    replay: bool,           // replayUserMessages
    jsonSchema: bool,
    maxRetries: int)        // MAX_STRUCTURED_OUTPUT_RETRIES

  predicate IsBoundary(m: Message) { m.System? && m.subtype.CompactBoundary? }

  /** A boundary with metadata lets both stores drop everything before it. */
  predicate Truncates(m: Message) { IsBoundary(m) && m.subtype.metadata }

  function OutputCalls(messages: seq<Message>): nat {
    if messages == [] then 0
    else OutputCalls(messages[..|messages| - 1])
         + if messages[|messages| - 1].Assistant? then messages[|messages| - 1].outputCalls else 0
  }

  /** The last assistant or user message. */
  function LastTurnMessage(messages: seq<Message>): Option<Message> {
    if messages == [] then None
    else
      var m := messages[|messages| - 1];
      if m.Assistant? || m.User? then Some(m) else LastTurnMessage(messages[..|messages| - 1])
  }

  predicate IsResultSuccessful(m: Option<Message>, stopReason: Option<string>) {
    match m
    case None => false
    case Some(Assistant(_, _, block, _, _, _)) => block.Text? || block.Thinking?
    case Some(User(_, true, _)) => true
    case Some(_) => stopReason == Some("end_turn")
  }

  // ---- Handling one event ----

  datatype Turn = Turn(
    messages: seq<Message>,
    mutableMessages: seq<Message>,
    turnCount: nat,
    lastStopReason: Option<string>,
    acknowledged: bool,
    out: seq<Output>)

  function Acks(toAck: seq<nat>): seq<Output> {
    if toAck == [] then [] else Acks(toAck[..|toAck| - 1]) + [Ack(toAck[|toAck| - 1])]
  }

  function Acknowledge(t: Turn, toAck: seq<nat>): Turn {
    if t.acknowledged || toAck == [] then t
    else t.(acknowledged := true, out := t.out + Acks(toAck))
  }

  /** The transcript store's share of a message, before the switch on its type. */
  function Record(t: Turn, m: Message, toAck: seq<nat>): Turn {
    if m.Assistant? || m.User? || IsBoundary(m) then
      var r := Acknowledge(t.(messages := t.messages + [m]), toAck);
      if m.User? then r.(turnCount := r.turnCount + 1) else r
    else t
  }

  function Dispatch(o: Options, t: Turn, m: Message): Turn {
    var mutable := t.mutableMessages + [m];
    match m
    case Assistant(_, stop, _, _, _, _) =>
      t.(mutableMessages := mutable, lastStopReason := if stop.Some? then stop else t.lastStopReason, out := t.out + [Normalized(m)])
    case User(_, _, _) => t.(mutableMessages := mutable, out := t.out + [Normalized(m)])
    case Progress(_) =>
      t.(mutableMessages := mutable, messages := if o.persist then t.messages + [m] else t.messages, out := t.out + [Normalized(m)])
    case Attachment(uuid, kind) =>
      t.(mutableMessages := mutable, messages := if o.persist then t.messages + [m] else t.messages,
         out := if kind.QueuedCommand? && o.replay then t.out + [Replay(uuid)] else t.out)
    case System(uuid, subtype) =>
      match subtype
      case CompactBoundary(true) =>
        t.(mutableMessages := mutable[|mutable| - 1..],
           messages := if |t.messages| > 0 then t.messages[|t.messages| - 1..] else t.messages,
           out := t.out + [Boundary(uuid)])
      case CompactBoundary(false) => t.(mutableMessages := mutable)
      case ApiError => t.(mutableMessages := mutable, out := t.out + [ApiRetry(uuid)])
      case OtherSystem => t.(mutableMessages := mutable)
  }

  function Handle(o: Options, t: Turn, e: Event, toAck: seq<nat>): Turn {
    match e
    case Sent(m) => Dispatch(o, Record(t, m, toAck), m)
    case Tombstone => t
    case RequestStart => t
    case StreamEvent(stop) =>
      t.(lastStopReason := if stop.Some? then stop else t.lastStopReason, out := if o.partial then t.out + [Partial] else t.out)
    case ToolUseSummary(uuid) => t.(out := t.out + [Summary(uuid)])
  }

  /** The result that ends the run right after this event, if any. */
  function Ending(o: Options, t: Turn, a: Arrival, initialCalls: nat): Option<Output> {
    if a.event.Sent? && a.event.message.Attachment? && a.event.message.kind.MaxTurnsReached? then
      Some(Result(ErrorMaxTurns, true, a.event.message.kind.turnCount, t.lastStopReason))
    else if a.overBudget then Some(Result(ErrorMaxBudget, true, t.turnCount, t.lastStopReason))
    else if a.event.Sent? && a.event.message.User? && o.jsonSchema
            && OutputCalls(t.mutableMessages) - initialCalls >= o.maxRetries then
      Some(Result(ErrorStructuredOutput, true, t.turnCount, t.lastStopReason))
    else None
  }

  function FinalResult(t: Turn): Output {
    var last := LastTurnMessage(t.messages);
    if !IsResultSuccessful(last, t.lastStopReason) then Result(ErrorDuringExecution, true, t.turnCount, t.lastStopReason)
    else Result(Success, last.value.Assistant? && last.value.isApiError, t.turnCount, t.lastStopReason)
  }

  /** All events up to the one that ends the run, and the result. */
  function Consume(o: Options, t: Turn, arrivals: seq<Arrival>, toAck: seq<nat>, initialCalls: nat): Turn
    decreases |arrivals|
  {
    if arrivals == [] then t.(out := t.out + [FinalResult(t)])
    else
      var next := Handle(o, t, arrivals[0].event, toAck);
      match Ending(o, next, arrivals[0], initialCalls)
      case Some(r) => next.(out := next.out + [r])
      case None => Consume(o, next, arrivals[1..], toAck, initialCalls)
  }

  function Begin(messages: seq<Message>): Turn { Turn(messages, messages, 1, None, false, [Init]) }

  class Engine {
    const options: Options
    var mutableMessages: seq<Message>

    constructor (options: Options, initial: seq<Message>)
      ensures this.options == options && mutableMessages == initial
    {
      this.options := options;
      mutableMessages := initial;
    }

    /** The start of an event's handling: the transcript store and the acknowledgement. */
    method RecordMessage(m: Message, toAck: seq<nat>, messages: seq<Message>, turnCount: nat, acknowledged: bool, out: seq<Output>)
      returns (messages': seq<Message>, turnCount': nat, acknowledged': bool, out': seq<Output>)
      ensures forall stop, mutable ::
                Turn(messages', mutable, turnCount', stop, acknowledged', out')
                == Record(Turn(messages, mutable, turnCount, stop, acknowledged, out), m, toAck)
    {
      messages', turnCount', acknowledged', out' := messages, turnCount, acknowledged, out;
      if m.Assistant? || m.User? || IsBoundary(m) {
        messages' := messages' + [m];
        if !acknowledged' && |toAck| > 0 {
          acknowledged' := true;
          var i := 0;
          while i < |toAck|
            invariant 0 <= i <= |toAck|
            invariant out' == out + Acks(toAck[..i])
          {
            assert toAck[..i + 1][..i] == toAck[..i];
            out' := out' + [Ack(toAck[i])];
            i := i + 1;
          }
          assert toAck[..i] == toAck;
        }
      }
      if m.User? {
        turnCount' := turnCount' + 1;
      }
    }

    /** The `switch` over a message's type. */
    method DispatchMessage(m: Message, messages: seq<Message>, lastStopReason: Option<string>, out: seq<Output>,
                           ghost turnCount: nat, ghost acknowledged: bool)
      returns (messages': seq<Message>, lastStopReason': Option<string>, out': seq<Output>)
      modifies this
      ensures Turn(messages', mutableMessages, turnCount, lastStopReason', acknowledged, out')
              == Dispatch(options, Turn(messages, old(mutableMessages), turnCount, lastStopReason, acknowledged, out), m)
    {
      messages', lastStopReason', out' := messages, lastStopReason, out;
      mutableMessages := mutableMessages + [m];
      match m {
        case Assistant(_, stop, _, _, _, _) =>
          if stop.Some? {
            lastStopReason' := stop;
          }
          out' := out' + [Normalized(m)];
        case User(_, _, _) =>
          out' := out' + [Normalized(m)];
        case Progress(_) =>
          if options.persist {
            messages' := messages' + [m];
          }
          out' := out' + [Normalized(m)];
        case Attachment(uuid, kind) =>
          if options.persist {
            messages' := messages' + [m];
          }
          if kind.QueuedCommand? && options.replay {
            out' := out' + [Replay(uuid)];
          }
        case System(uuid, subtype) =>
          if Truncates(m) {
            messages' := ReleaseBeforeBoundary(messages');
            out' := out' + [Boundary(uuid)];
          }
          if subtype.ApiError? {
            out' := out' + [ApiRetry(uuid)];
          }
      }
    }

    /** Splices away everything before the boundary that was just pushed. */
    method ReleaseBeforeBoundary(messages: seq<Message>) returns (messages': seq<Message>)
      requires mutableMessages != []
      modifies this
      ensures mutableMessages == old(mutableMessages)[|old(mutableMessages)| - 1..]
      ensures messages' == if |messages| > 0 then messages[|messages| - 1..] else messages
    {
      messages' := messages;
      var mutableBoundaryIdx := |mutableMessages| - 1;
      if mutableBoundaryIdx > 0 {
        mutableMessages := mutableMessages[mutableBoundaryIdx..];
      }
      var localBoundaryIdx := |messages'| - 1;
      if localBoundaryIdx > 0 {
        messages' := messages'[localBoundaryIdx..];
      }
    }

    /** `submitMessage`: `fromInput` are the messages the user's input became, `toAck`
        the user messages among them to be acknowledged. */
    method SubmitMessage(fromInput: seq<Message>, shouldQuery: bool, toAck: seq<nat>, arrivals: seq<Arrival>)
      returns (out: seq<Output>, messages: seq<Message>)
      modifies this
      ensures var start := old(mutableMessages) + fromInput;
              var end := if shouldQuery then Consume(options, Begin(start), arrivals, toAck, OutputCalls(start))
                         else Begin(start).(out := [Init, Result(Success, false, |start| - 1, None)]);
              out == end.out && messages == end.messages && mutableMessages == end.mutableMessages
    {
      hide Dispatch, Record, FinalResult;
      mutableMessages := mutableMessages + fromInput;
      messages := mutableMessages;
      out := [Init];
      if !shouldQuery {
        out := out + [Result(Success, false, |messages| - 1, None)];
        return;
      }
      var turnCount, lastStopReason, acknowledged := 1, None, false;
      var initialCalls := OutputCalls(mutableMessages);
      ghost var end := Consume(options, Begin(messages), arrivals, toAck, initialCalls);
      var i := 0;
      while i < |arrivals|
        invariant 0 <= i <= |arrivals|
        invariant end == Consume(options, Turn(messages, mutableMessages, turnCount, lastStopReason, acknowledged, out),
                                 arrivals[i..], toAck, initialCalls)
      {
        assert arrivals[i..][0] == arrivals[i] && arrivals[i..][1..] == arrivals[i + 1..];
        ghost var before := Turn(messages, mutableMessages, turnCount, lastStopReason, acknowledged, out);
        match arrivals[i].event {
          case Sent(m) =>
            messages, turnCount, acknowledged, out := RecordMessage(m, toAck, messages, turnCount, acknowledged, out);
            messages, lastStopReason, out := DispatchMessage(m, messages, lastStopReason, out, turnCount, acknowledged);
          case Tombstone =>
          case RequestStart =>
          case StreamEvent(stop) =>
            if stop.Some? {
              lastStopReason := stop;
            }
            if options.partial {
              out := out + [Partial];
            }
          case ToolUseSummary(uuid) =>
            out := out + [Summary(uuid)];
        }
        var now := Turn(messages, mutableMessages, turnCount, lastStopReason, acknowledged, out);
        assert now == Handle(options, before, arrivals[i].event, toAck);
        var ending := Ending(options, now, arrivals[i], initialCalls);
        ConsumeOne(options, before, arrivals[i..], toAck, initialCalls);
        if ending.Some? {
          out := out + [ending.value];
          return;
        }
        i := i + 1;
      }
      out := out + [FinalResult(Turn(messages, mutableMessages, turnCount, lastStopReason, acknowledged, out))];
    }
  }

  lemma ConsumeOne(o: Options, t: Turn, arrivals: seq<Arrival>, toAck: seq<nat>, initialCalls: nat)
    requires arrivals != []
    ensures var next := Handle(o, t, arrivals[0].event, toAck);
            var ending := Ending(o, next, arrivals[0], initialCalls);
            Consume(o, t, arrivals, toAck, initialCalls)
            == if ending.Some? then next.(out := next.out + [ending.value]) else Consume(o, next, arrivals[1..], toAck, initialCalls)
  {
  }

  // ---- Store agreement ----

  /** What the transcript store keeps of the messages received in this call. */
  predicate Recorded(o: Options, m: Message) {
    match m
    case Assistant(_, _, _, _, _, _) => true
    case User(_, _, _) => true
    case Progress(_) => o.persist
    case Attachment(_, _) => o.persist
    case System(_, _) => IsBoundary(m)
  }

  function Filter(o: Options, messages: seq<Message>): seq<Message> {
    if messages == [] then []
    else Filter(o, messages[..|messages| - 1]) + if Recorded(o, messages[|messages| - 1]) then [messages[|messages| - 1]] else []
  }

  /** What the conversation store should hold: the messages before the call and
      those received in it, both forgotten at each truncating boundary. */
  datatype Memory = Memory(before: seq<Message>, received: seq<Message>)

  function Remember(k: Memory, e: Event): Memory {
    if !e.Sent? then k
    else if Truncates(e.message) then Memory([], [e.message])
    else k.(received := k.received + [e.message])
  }

  function RememberAll(k: Memory, arrivals: seq<Arrival>): Memory {
    if arrivals == [] then k else Remember(RememberAll(k, arrivals[..|arrivals| - 1]), arrivals[|arrivals| - 1].event)
  }

  ghost predicate Agrees(o: Options, t: Turn, k: Memory) {
    && t.mutableMessages == k.before + k.received
    && t.messages == k.before + Filter(o, k.received)
  }

  lemma FilterOne(o: Options, messages: seq<Message>, m: Message)
    ensures Filter(o, messages + [m]) == Filter(o, messages) + if Recorded(o, m) then [m] else []
    ensures Filter(o, [m]) == if Recorded(o, m) then [m] else []
  {
    assert (messages + [m])[..|messages|] == messages;
    assert [m][..0] == [];
  }

  lemma RecordStores(t: Turn, m: Message, toAck: seq<nat>)
    ensures var r := Record(t, m, toAck);
            && r.mutableMessages == t.mutableMessages
            && r.messages == t.messages + if m.Assistant? || m.User? || IsBoundary(m) then [m] else []
  {
  }

  lemma DispatchStores(o: Options, t: Turn, m: Message)
    requires !Truncates(m)
    ensures var d := Dispatch(o, t, m);
            && d.mutableMessages == t.mutableMessages + [m]
            && d.messages == t.messages + if (m.Progress? || m.Attachment?) && o.persist then [m] else []
  {
  }

  lemma BoundaryTruncates(o: Options, t: Turn, m: Message, toAck: seq<nat>)
    requires Truncates(m)
    ensures var d := Dispatch(o, Record(t, m, toAck), m);
            d.mutableMessages == [m] && d.messages == [m]
  {
    RecordStores(t, m, toAck);
  }

  lemma HandleAgrees(o: Options, t: Turn, e: Event, toAck: seq<nat>, k: Memory)
    requires Agrees(o, t, k)
    ensures Agrees(o, Handle(o, t, e, toAck), Remember(k, e))
  {
    if e.Sent? {
      var m := e.message;
      FilterOne(o, k.received, m);
      if Truncates(m) {
        BoundaryTruncates(o, t, m, toAck);
      } else {
        RecordStores(t, m, toAck);
        DispatchStores(o, Record(t, m, toAck), m);
        HandledStores(o, t, m, toAck, k);
      }
    }
  }

  lemma HandledStores(o: Options, t: Turn, m: Message, toAck: seq<nat>, k: Memory)
    requires Agrees(o, t, k) && !Truncates(m)
    ensures Agrees(o, Dispatch(o, Record(t, m, toAck), m), Memory(k.before, k.received + [m]))
  {
    hide Record, Dispatch, Filter;
    var r := Record(t, m, toAck);
    var d := Dispatch(o, r, m);
    RecordStores(t, m, toAck);
    DispatchStores(o, r, m);
    FilterOne(o, k.received, m);
    var kept := if Recorded(o, m) then [m] else [];
    assert d.messages == t.messages + kept;
    assert k.before + Filter(o, k.received) + kept == k.before + (Filter(o, k.received) + kept);
    assert k.before + k.received + [m] == k.before + (k.received + [m]);
  }

  /** The state after the first events, when none of them ended the run. */
  function After(o: Options, t: Turn, arrivals: seq<Arrival>, toAck: seq<nat>): Turn {
    if arrivals == [] then t
    else Handle(o, After(o, t, arrivals[..|arrivals| - 1], toAck), arrivals[|arrivals| - 1].event, toAck)
  }

  /** Store agreement. After every event, across any number of truncating
      boundaries, the conversation store is what was there before the call and all
      messages received, and the transcript is the same without the unrecorded
      ones: with persistence on, the system messages that are not boundaries. */
  lemma {:induction false} StoresAgree(o: Options, start: seq<Message>, arrivals: seq<Arrival>, toAck: seq<nat>)
    ensures Agrees(o, After(o, Begin(start), arrivals, toAck), RememberAll(Memory(start, []), arrivals))
    decreases |arrivals|
  {
    if arrivals != [] {
      var init := arrivals[..|arrivals| - 1];
      StoresAgree(o, start, init, toAck);
      HandleAgrees(o, After(o, Begin(start), init, toAck), arrivals[|arrivals| - 1].event, toAck, RememberAll(Memory(start, []), init));
    }
  }

  lemma {:induction false} LastTurnConcat(a: seq<Message>, b: seq<Message>)
    ensures LastTurnMessage(a + b) == if LastTurnMessage(b).Some? then LastTurnMessage(b) else LastTurnMessage(a)
    decreases |b|
  {
    if b == [] {
      assert a + b == a;
    } else {
      assert (a + b)[..|a + b| - 1] == a + b[..|b| - 1];
      LastTurnConcat(a, b[..|b| - 1]);
    }
  }

  lemma {:induction false} LastTurnFiltered(o: Options, messages: seq<Message>)
    ensures LastTurnMessage(Filter(o, messages)) == LastTurnMessage(messages)
  {
    if messages != [] {
      var init := messages[..|messages| - 1];
      var m := messages[|messages| - 1];
      LastTurnFiltered(o, init);
      if Recorded(o, m) {
        LastTurnConcat(Filter(o, init), [m]);
        assert [m][..0] == [];
      } else {
        assert Filter(o, init) + [] == Filter(o, init);
      }
    }
  }

  /** The result is judged by the same last message in either store. */
  lemma SameLastTurnMessage(o: Options, start: seq<Message>, arrivals: seq<Arrival>, toAck: seq<nat>)
    ensures var t := After(o, Begin(start), arrivals, toAck);
            LastTurnMessage(t.messages) == LastTurnMessage(t.mutableMessages)
  {
    StoresAgree(o, start, arrivals, toAck);
    var k := RememberAll(Memory(start, []), arrivals);
    LastTurnConcat(k.before, k.received);
    LastTurnConcat(k.before, Filter(o, k.received));
    LastTurnFiltered(o, k.received);
  }

  // ---- One result, last ----

  predicate NoResult(out: seq<Output>) { forall x :: x in out ==> !x.Result? }

  lemma {:induction false} AcksShowNoResult(toAck: seq<nat>)
    ensures NoResult(Acks(toAck))
  {
    if toAck != [] {
      AcksShowNoResult(toAck[..|toAck| - 1]);
    }
  }

  function UserMessages(arrivals: seq<Arrival>): nat {
    if arrivals == [] then 0
    else UserMessages(arrivals[..|arrivals| - 1])
         + if arrivals[|arrivals| - 1].event.Sent? && arrivals[|arrivals| - 1].event.message.User? then 1 else 0
  }

  lemma HandleShowsNoResult(o: Options, t: Turn, e: Event, toAck: seq<nat>)
    requires NoResult(t.out)
    ensures NoResult(Handle(o, t, e, toAck).out)
    ensures Handle(o, t, e, toAck).turnCount == t.turnCount + if e.Sent? && e.message.User? then 1 else 0
  {
    AcksShowNoResult(toAck);
    if e.Sent? {
      assert NoResult(Record(t, e.message, toAck).out);
    }
  }

  lemma {:induction false} OpenRun(o: Options, start: seq<Message>, arrivals: seq<Arrival>, toAck: seq<nat>)
    ensures var t := After(o, Begin(start), arrivals, toAck);
            NoResult(t.out) && t.turnCount == 1 + UserMessages(arrivals)
  {
    if arrivals != [] {
      var init := arrivals[..|arrivals| - 1];
      OpenRun(o, start, init, toAck);
      HandleShowsNoResult(o, After(o, Begin(start), init, toAck), arrivals[|arrivals| - 1].event, toAck);
    }
  }

  /** How many events `Consume` handles before it ends. */
  function Handled(o: Options, t: Turn, arrivals: seq<Arrival>, toAck: seq<nat>, initialCalls: nat): (n: nat)
    ensures n <= |arrivals|
    decreases |arrivals|
  {
    if arrivals == [] then 0
    else
      var next := Handle(o, t, arrivals[0].event, toAck);
      if Ending(o, next, arrivals[0], initialCalls).Some? then 1
      else 1 + Handled(o, next, arrivals[1..], toAck, initialCalls)
  }

  lemma {:induction false} AfterFirst(o: Options, t: Turn, arrivals: seq<Arrival>, toAck: seq<nat>)
    requires arrivals != []
    ensures After(o, t, arrivals, toAck) == After(o, Handle(o, t, arrivals[0].event, toAck), arrivals[1..], toAck)
    decreases |arrivals|
  {
    var init := arrivals[..|arrivals| - 1];
    if |arrivals| == 1 {
      assert init == [] && arrivals[1..] == [];
    } else {
      AfterFirst(o, t, init, toAck);
      assert arrivals[1..][..|arrivals| - 2] == init[1..];
    }
  }

  /** The run's events, then one result. */
  lemma {:induction false} ConsumeIsAfterPlusResult(o: Options, t: Turn, arrivals: seq<Arrival>, toAck: seq<nat>, initialCalls: nat)
    ensures var n := Handled(o, t, arrivals, toAck, initialCalls);
            var last := After(o, t, arrivals[..n], toAck);
            var ending := if n == 0 then None else Ending(o, last, arrivals[n - 1], initialCalls);
            && (ending.None? ==> n == |arrivals|)
            && Consume(o, t, arrivals, toAck, initialCalls)
               == last.(out := last.out + [if ending.Some? then ending.value else FinalResult(last)])
    decreases |arrivals|
  {
    hide Handle, Ending, FinalResult;
    if arrivals == [] {
    } else {
      var n := Handled(o, t, arrivals, toAck, initialCalls);
      var next := Handle(o, t, arrivals[0].event, toAck);
      ConsumeOne(o, t, arrivals, toAck, initialCalls);
      AfterFirst(o, t, arrivals[..n], toAck);
      assert arrivals[..n][1..] == arrivals[1..][..n - 1];
      if Ending(o, next, arrivals[0], initialCalls).None? {
        ConsumeIsAfterPlusResult(o, next, arrivals[1..], toAck, initialCalls);
        if n == 1 {
          assert arrivals[1..] == [];
        }
      }
    }
  }

  /** Single result. Every run that does not throw shows exactly one result, last. It is a success
      or an execution error only if every event was handled, and one of the three
      limits otherwise or at the last event; unless it is the turn limit it counts
      one turn more than the user messages that were handled. */
  lemma ExactlyOneResult(o: Options, start: seq<Message>, arrivals: seq<Arrival>, toAck: seq<nat>)
    ensures var n := Handled(o, Begin(start), arrivals, toAck, OutputCalls(start));
            var out := Consume(o, Begin(start), arrivals, toAck, OutputCalls(start)).out;
            && out != [] && NoResult(out[..|out| - 1])
            && var r := out[|out| - 1];
            && r.Result?
            && (r.kind == Success || r.kind == ErrorDuringExecution ==> n == |arrivals|)
            && (r.kind != ErrorMaxTurns ==> r.numTurns == 1 + UserMessages(arrivals[..n]))
  {
    var n := Handled(o, Begin(start), arrivals, toAck, OutputCalls(start));
    ConsumeIsAfterPlusResult(o, Begin(start), arrivals, toAck, OutputCalls(start));
    OpenRun(o, start, arrivals[..n], toAck);
    var last := After(o, Begin(start), arrivals[..n], toAck);
    var out := Consume(o, Begin(start), arrivals, toAck, OutputCalls(start)).out;
    assert out[..|out| - 1] == last.out;
  }

  // ---- What the output tells ----

  predicate TranscriptFirst(e: Event) { e.Sent? && (e.message.Assistant? || e.message.User? || IsBoundary(e.message)) }

  predicate AnyTranscript(arrivals: seq<Arrival>) { exists i :: 0 <= i < |arrivals| && TranscriptFirst(arrivals[i].event) }

  function AckedIn(out: seq<Output>): seq<nat> {
    if out == [] then [] else AckedIn(out[..|out| - 1]) + if out[|out| - 1].Ack? then [out[|out| - 1].uuid] else []
  }

  function ShownIn(out: seq<Output>): seq<Message> {
    if out == [] then []
    else ShownIn(out[..|out| - 1]) + if out[|out| - 1].Normalized? then [out[|out| - 1].message] else []
  }

  /** The messages of the query a client gets to see. */
  function ToShow(arrivals: seq<Arrival>): seq<Message> {
    if arrivals == [] then []
    else
      var e := arrivals[|arrivals| - 1].event;
      ToShow(arrivals[..|arrivals| - 1])
      + if e.Sent? && (e.message.Assistant? || e.message.User? || e.message.Progress?) then [e.message] else []
  }

  function StopReasonOf(e: Event): Option<string> {
    if e.Sent? && e.message.Assistant? then e.message.stopReason else if e.StreamEvent? then e.stopReason else None
  }

  /** The last stop reason that arrived. */
  function LatestStop(arrivals: seq<Arrival>): Option<string> {
    if arrivals == [] then None
    else if StopReasonOf(arrivals[|arrivals| - 1].event).Some? then StopReasonOf(arrivals[|arrivals| - 1].event)
    else LatestStop(arrivals[..|arrivals| - 1])
  }

  lemma {:induction false} TellConcat(a: seq<Output>, b: seq<Output>)
    ensures AckedIn(a + b) == AckedIn(a) + AckedIn(b) && ShownIn(a + b) == ShownIn(a) + ShownIn(b)
    decreases |b|
  {
    if b == [] {
      assert a + b == a;
    } else {
      assert (a + b)[..|a + b| - 1] == a + b[..|b| - 1];
      TellConcat(a, b[..|b| - 1]);
    }
  }

  lemma TellOne(a: seq<Output>, x: Output)
    ensures AckedIn(a + [x]) == AckedIn(a) + (if x.Ack? then [x.uuid] else [])
    ensures ShownIn(a + [x]) == ShownIn(a) + (if x.Normalized? then [x.message] else [])
  {
    assert (a + [x])[..|a|] == a;
  }

  lemma {:induction false} AcksTell(toAck: seq<nat>)
    ensures AckedIn(Acks(toAck)) == toAck && ShownIn(Acks(toAck)) == []
  {
    hide AckedIn, ShownIn;
    if toAck == [] {
      NothingTells();
    } else {
      var init := toAck[..|toAck| - 1];
      AcksTell(init);
      TellOne(Acks(init), Ack(toAck[|toAck| - 1]));
    }
  }

  lemma NothingTells()
    ensures AckedIn([]) == [] && ShownIn([]) == []
  {
  }

  lemma RecordTells(t: Turn, m: Message, toAck: seq<nat>)
    ensures var r := Record(t, m, toAck);
            && r.acknowledged == (t.acknowledged || (TranscriptFirst(Sent(m)) && toAck != []))
            && AckedIn(r.out) == AckedIn(t.out) + (if r.acknowledged && !t.acknowledged then toAck else [])
            && ShownIn(r.out) == ShownIn(t.out) && r.lastStopReason == t.lastStopReason
  {
    TellConcat(t.out, Acks(toAck));
    AcksTell(toAck);
  }

  /** What the switch shows of a message. */
  function Shown(o: Options, m: Message): seq<Output> {
    match m
    case Attachment(uuid, kind) => if kind.QueuedCommand? && o.replay then [Replay(uuid)] else []
    case System(uuid, CompactBoundary(metadata)) => if metadata then [Boundary(uuid)] else []
    case System(uuid, ApiError) => [ApiRetry(uuid)]
    case System(_, OtherSystem) => []
    case _ => [Normalized(m)]
  }

  lemma DispatchShows(o: Options, t: Turn, m: Message)
    ensures Dispatch(o, t, m).out == t.out + Shown(o, m)
    ensures Dispatch(o, t, m).acknowledged == t.acknowledged
    ensures Dispatch(o, t, m).lastStopReason == if StopReasonOf(Sent(m)).Some? then StopReasonOf(Sent(m)) else t.lastStopReason
  {
    assert t.out + [] == t.out;
  }

  lemma ShownTells(o: Options, m: Message)
    ensures AckedIn(Shown(o, m)) == []
    ensures ShownIn(Shown(o, m)) == if m.Assistant? || m.User? || m.Progress? then [m] else []
  {
    var out := Shown(o, m);
    assert out != [] ==> out[..0] == [];
  }

  lemma DispatchTells(o: Options, t: Turn, m: Message)
    ensures var d := Dispatch(o, t, m);
            && d.acknowledged == t.acknowledged && AckedIn(d.out) == AckedIn(t.out)
            && ShownIn(d.out) == ShownIn(t.out) + (if m.Assistant? || m.User? || m.Progress? then [m] else [])
            && d.lastStopReason == (if StopReasonOf(Sent(m)).Some? then StopReasonOf(Sent(m)) else t.lastStopReason)
  {
    hide Dispatch, Shown, AckedIn, ShownIn, StopReasonOf;
    DispatchShows(o, t, m);
    TellConcat(t.out, Shown(o, m));
    ShownTells(o, m);
  }

  lemma OtherTells(o: Options, t: Turn, e: Event, toAck: seq<nat>)
    requires !e.Sent?
    ensures var h := Handle(o, t, e, toAck);
            && h.acknowledged == t.acknowledged && AckedIn(h.out) == AckedIn(t.out) && ShownIn(h.out) == ShownIn(t.out)
            && h.lastStopReason == (if StopReasonOf(e).Some? then StopReasonOf(e) else t.lastStopReason)
  {
    hide AckedIn, ShownIn;
    TellOne(t.out, Partial);
    if e.ToolUseSummary? { TellOne(t.out, Summary(e.uuid)); }
  }

  lemma HandleTells(o: Options, t: Turn, e: Event, toAck: seq<nat>)
    ensures var h := Handle(o, t, e, toAck);
            && h.acknowledged == (t.acknowledged || (TranscriptFirst(e) && toAck != []))
            && AckedIn(h.out) == AckedIn(t.out) + (if h.acknowledged && !t.acknowledged then toAck else [])
            && ShownIn(h.out) == ShownIn(t.out)
               + (if e.Sent? && (e.message.Assistant? || e.message.User? || e.message.Progress?) then [e.message] else [])
            && h.lastStopReason == (if StopReasonOf(e).Some? then StopReasonOf(e) else t.lastStopReason)
  {
    hide Record, Dispatch, AckedIn, ShownIn, StopReasonOf;
    if e.Sent? {
      RecordTells(t, e.message, toAck);
      DispatchTells(o, Record(t, e.message, toAck), e.message);
    } else {
      OtherTells(o, t, e, toAck);
    }
  }

  /** After every event: the input has been acknowledged exactly once if a transcript
      message has come, and otherwise not at all; the client has seen exactly the
      assistant, user and progress messages, in order; the stop reason is the latest one. */
  lemma {:induction false} OutputTellsEvents(o: Options, start: seq<Message>, arrivals: seq<Arrival>, toAck: seq<nat>)
    ensures var t := After(o, Begin(start), arrivals, toAck);
            && t.acknowledged == (AnyTranscript(arrivals) && toAck != [])
            && AckedIn(t.out) == (if AnyTranscript(arrivals) then toAck else [])
            && ShownIn(t.out) == ToShow(arrivals)
            && t.lastStopReason == LatestStop(arrivals)
  {
    hide Handle, Ending, StopReasonOf, TranscriptFirst;
    if arrivals == [] {
      assert [Init][..0] == [];
    } else {
      var init, e := arrivals[..|arrivals| - 1], arrivals[|arrivals| - 1].event;
      OutputTellsEvents(o, start, init, toAck);
      HandleTells(o, After(o, Begin(start), init, toAck), e, toAck);
      AnyTranscriptLast(arrivals);
    }
  }

  /** What else a client is told of an event. */
  function Notice(o: Options, e: Event): seq<Output> {
    match e
    case Sent(Attachment(uuid, QueuedCommand)) => if o.replay then [Replay(uuid)] else []
    case Sent(System(uuid, CompactBoundary(true))) => [Boundary(uuid)]
    case Sent(System(uuid, ApiError)) => [ApiRetry(uuid)]
    case StreamEvent(_) => if o.partial then [Partial] else []
    case ToolUseSummary(uuid) => [Summary(uuid)]
    case _ => []
  }

  /** Everything a client is told of an event: the acknowledgements with the first transcript message, then the
      message itself if it is shown, or what else the event calls for. */
  function Told(o: Options, before: seq<Arrival>, e: Event, toAck: seq<nat>): seq<Output> {
    (if TranscriptFirst(e) && !AnyTranscript(before) then seq(|toAck|, i requires 0 <= i < |toAck| => Ack(toAck[i])) else [])
    + (if e.Sent? && (e.message.Assistant? || e.message.User? || e.message.Progress?) then [Normalized(e.message)] else Notice(o, e))
  }

  function ToldOf(o: Options, arrivals: seq<Arrival>, toAck: seq<nat>): seq<Output> {
    if arrivals == [] then []
    else
      var init := arrivals[..|arrivals| - 1];
      ToldOf(o, init, toAck) + Told(o, init, arrivals[|arrivals| - 1].event, toAck)
  }

  lemma {:induction false} AcksInOrder(toAck: seq<nat>)
    ensures Acks(toAck) == seq(|toAck|, i requires 0 <= i < |toAck| => Ack(toAck[i]))
  {
    if toAck != [] {
      AcksInOrder(toAck[..|toAck| - 1]);
    }
  }

  lemma HandleTold(o: Options, t: Turn, before: seq<Arrival>, e: Event, toAck: seq<nat>)
    requires t.acknowledged == (AnyTranscript(before) && toAck != [])
    ensures Handle(o, t, e, toAck).out == t.out + Told(o, before, e, toAck)
  {
    hide Acks, AnyTranscript;
    AcksInOrder(toAck);
    assert toAck == [] ==> Acks(toAck) == [];
    if e.Sent? {
      var m := e.message;
      var acks := if TranscriptFirst(e) && !AnyTranscript(before) then Acks(toAck) else [];
      assert t.out + [] == t.out;
      assert Record(t, m, toAck).out == t.out + acks;
      hide Record;
      DispatchShows(o, Record(t, m, toAck), m);
      assert t.out + acks + Shown(o, m) == t.out + (acks + Shown(o, m));
    } else {
      assert t.out + ([] + Notice(o, e)) == t.out + Notice(o, e);
    }
  }

  /** The whole output before the result: the init message, and then event by event just what it calls for, in order. */
  lemma {:induction false} OutputIs(o: Options, start: seq<Message>, arrivals: seq<Arrival>, toAck: seq<nat>)
    ensures After(o, Begin(start), arrivals, toAck).out == [Init] + ToldOf(o, arrivals, toAck)
    decreases |arrivals|
  {
    hide Handle, Told;
    if arrivals != [] {
      var init := arrivals[..|arrivals| - 1];
      OutputIs(o, start, init, toAck);
      OutputTellsEvents(o, start, init, toAck);
      HandleTold(o, After(o, Begin(start), init, toAck), init, arrivals[|arrivals| - 1].event, toAck);
    }
  }

  lemma AnyTranscriptLast(arrivals: seq<Arrival>)
    requires arrivals != []
    ensures AnyTranscript(arrivals) <==> AnyTranscript(arrivals[..|arrivals| - 1]) || TranscriptFirst(arrivals[|arrivals| - 1].event)
  {
    var init := arrivals[..|arrivals| - 1];
    if AnyTranscript(init) {
      var i :| 0 <= i < |init| && TranscriptFirst(init[i].event);
      assert TranscriptFirst(arrivals[i].event);
    }
    if i :| 0 <= i < |arrivals| && TranscriptFirst(arrivals[i].event) {
      if i < |init| { assert TranscriptFirst(init[i].event); }
    }
  }

  // ---- The structured-output limit ----

  function CallsOf(e: Event): nat { if e.Sent? && e.message.Assistant? then e.message.outputCalls else 0 }

  /** Structured-output calls in the messages received. */
  function CallsReceived(arrivals: seq<Arrival>): nat {
    if arrivals == [] then 0 else CallsReceived(arrivals[..|arrivals| - 1]) + CallsOf(arrivals[|arrivals| - 1].event)
  }

  /** Structured-output calls in the messages let go of at truncating boundaries. */
  function CallsDropped(start: seq<Message>, arrivals: seq<Arrival>): nat {
    if arrivals == [] then 0
    else
      var init, e := arrivals[..|arrivals| - 1], arrivals[|arrivals| - 1].event;
      var k := RememberAll(Memory(start, []), init);
      CallsDropped(start, init) + if e.Sent? && Truncates(e.message) then OutputCalls(k.before) + OutputCalls(k.received) else 0
  }

  lemma {:induction false} OutputCallsConcat(a: seq<Message>, b: seq<Message>)
    ensures OutputCalls(a + b) == OutputCalls(a) + OutputCalls(b)
    decreases |b|
  {
    if b == [] {
      assert a + b == a;
    } else {
      assert (a + b)[..|a + b| - 1] == a + b[..|b| - 1];
      OutputCallsConcat(a, b[..|b| - 1]);
    }
  }

  lemma OutputCallsOne(messages: seq<Message>, m: Message)
    ensures OutputCalls(messages + [m]) == OutputCalls(messages) + CallsOf(Sent(m))
    ensures OutputCalls([m]) == CallsOf(Sent(m))
  {
    assert (messages + [m])[..|messages|] == messages;
    assert [m][..0] == [];
  }

  lemma {:induction false} CallsBalance(start: seq<Message>, arrivals: seq<Arrival>)
    ensures var k := RememberAll(Memory(start, []), arrivals);
            OutputCalls(k.before) + OutputCalls(k.received) + CallsDropped(start, arrivals)
            == OutputCalls(start) + CallsReceived(arrivals)
  {
    hide OutputCalls, CallsOf;
    if arrivals == [] {
      NoCalls();
    } else {
      var init, e := arrivals[..|arrivals| - 1], arrivals[|arrivals| - 1].event;
      CallsBalance(start, init);
      var k := RememberAll(Memory(start, []), init);
      if e.Sent? {
        OutputCallsOne(k.received, e.message);
        NoCalls();
      } else {
        OtherEventsCallNothing(e);
      }
    }
  }

  lemma NoCalls()
    ensures OutputCalls([]) == 0
  {
  }

  lemma OtherEventsCallNothing(e: Event)
    requires !e.Sent?
    ensures CallsOf(e) == 0
  {
  }

  /** The count the code compares with the retry limit, after any events, is the calls received less those in
      messages dropped at truncating boundaries, which may be calls of earlier
      queries; it is the number of calls received exactly if the boundaries dropped none. */
  lemma RetryCountIsReceivedLessDropped(o: Options, start: seq<Message>, arrivals: seq<Arrival>, toAck: seq<nat>)
    ensures var counted := OutputCalls(After(o, Begin(start), arrivals, toAck).mutableMessages) - OutputCalls(start);
            && counted == CallsReceived(arrivals) - CallsDropped(start, arrivals)
            && (counted == CallsReceived(arrivals) <==> CallsDropped(start, arrivals) == 0)
  {
    hide OutputCalls, CallsReceived, CallsDropped;
    StoresAgree(o, start, arrivals, toAck);
    CallsBalance(start, arrivals);
    var k := RememberAll(Memory(start, []), arrivals);
    OutputCallsConcat(k.before, k.received);
  }

  /** So the limit ends a run at a user message exactly when the calls received less those dropped
      reach it. */
  lemma RetryLimitMet(o: Options, start: seq<Message>, arrivals: seq<Arrival>, toAck: seq<nat>)
    requires o.jsonSchema && arrivals != []
    requires var a := arrivals[|arrivals| - 1]; a.event.Sent? && a.event.message.User? && !a.overBudget
    ensures Ending(o, After(o, Begin(start), arrivals, toAck), arrivals[|arrivals| - 1], OutputCalls(start)).Some?
            <==> CallsReceived(arrivals) - CallsDropped(start, arrivals) >= o.maxRetries
  {
    RetryCountIsReceivedLessDropped(o, start, arrivals, toAck);
  }

  lemma {:induction false} CallsSinceTruncation(start: seq<Message>, arrivals: seq<Arrival>, i: nat)
    requires LastTruncation(arrivals, i)
    ensures var k := RememberAll(Memory(start, []), arrivals);
            OutputCalls(k.before) + OutputCalls(k.received) == CallsReceived(arrivals[i + 1..])
    decreases |arrivals|
  {
    hide OutputCalls;
    NoCalls();
    var init, e := arrivals[..|arrivals| - 1], arrivals[|arrivals| - 1].event;
    var k := RememberAll(Memory(start, []), init);
    if i == |init| {
      OutputCallsOne([], e.message);
      assert [] + [e.message] == [e.message];
    } else {
      CallsSinceTruncation(start, init, i);
      assert arrivals[i + 1..][..|init| - i - 1] == init[i + 1..];
      if e.Sent? { OutputCallsOne(k.received, e.message); }
    }
  }

  ghost predicate LastTruncation(arrivals: seq<Arrival>, i: nat) {
    && i < |arrivals|
    && forall j :: i <= j < |arrivals| ==> ((arrivals[j].event.Sent? && Truncates(arrivals[j].event.message)) <==> i == j)
  }

  /** After a truncation only the calls received since are counted, but all calls of the conversation the
      query began with are still subtracted: that many retries more than the limit
      are let through, whatever came before the truncation. */
  lemma TruncationGivesCredit(o: Options, start: seq<Message>, arrivals: seq<Arrival>, toAck: seq<nat>, i: nat)
    requires LastTruncation(arrivals, i)
    ensures OutputCalls(After(o, Begin(start), arrivals, toAck).mutableMessages) == CallsReceived(arrivals[i + 1..])
    ensures var a := arrivals[|arrivals| - 1];
            o.jsonSchema && a.event.Sent? && a.event.message.User? && !a.overBudget ==>
              (Ending(o, After(o, Begin(start), arrivals, toAck), a, OutputCalls(start)).Some?
               <==> CallsReceived(arrivals[i + 1..]) >= o.maxRetries + OutputCalls(start))
  {
    var a := arrivals[|arrivals| - 1];
    RetryCountIsReceivedLessDropped(o, start, arrivals, toAck);
    CallsBalance(start, arrivals);
    CallsSinceTruncation(start, arrivals, i);
    if o.jsonSchema && a.event.Sent? && a.event.message.User? && !a.overBudget {
      RetryLimitMet(o, start, arrivals, toAck);
    }
  }

  // ---- The result, told from events and conversation ----

  /** The limit that the last arrival runs into. */
  function LimitMet(o: Options, start: seq<Message>, arrivals: seq<Arrival>): Option<ResultKind>
    requires arrivals != []
  {
    var a := arrivals[|arrivals| - 1];
    if a.event.Sent? && a.event.message.Attachment? && a.event.message.kind.MaxTurnsReached? then Some(ErrorMaxTurns)
    else if a.overBudget then Some(ErrorMaxBudget)
    else if o.jsonSchema && a.event.Sent? && a.event.message.User?
            && CallsReceived(arrivals) - CallsDropped(start, arrivals) >= o.maxRetries then Some(ErrorStructuredOutput)
    else None
  }

  /** The turns a result reports: what a max-turns attachment says, and otherwise one more than the user messages. */
  function TurnsTold(arrivals: seq<Arrival>): nat {
    if arrivals != [] && arrivals[|arrivals| - 1].event.Sent? && arrivals[|arrivals| - 1].event.message.Attachment?
       && arrivals[|arrivals| - 1].event.message.kind.MaxTurnsReached?
    then arrivals[|arrivals| - 1].event.message.kind.turnCount
    else 1 + UserMessages(arrivals)
  }

  lemma EndingFrom(o: Options, start: seq<Message>, arrivals: seq<Arrival>, t: Turn)
    requires arrivals != [] && t.turnCount == 1 + UserMessages(arrivals) && t.lastStopReason == LatestStop(arrivals)
    requires OutputCalls(t.mutableMessages) - OutputCalls(start) == CallsReceived(arrivals) - CallsDropped(start, arrivals)
    ensures var ending := Ending(o, t, arrivals[|arrivals| - 1], OutputCalls(start));
            match LimitMet(o, start, arrivals)
            case None => ending == None
            case Some(kind) => ending == Some(Result(kind, true, TurnsTold(arrivals), LatestStop(arrivals)))
  {
    hide OutputCalls, CallsReceived, CallsDropped, LatestStop, UserMessages;
  }

  lemma EndingIsLimit(o: Options, start: seq<Message>, arrivals: seq<Arrival>, toAck: seq<nat>)
    requires arrivals != []
    ensures var ending := Ending(o, After(o, Begin(start), arrivals, toAck), arrivals[|arrivals| - 1], OutputCalls(start));
            match LimitMet(o, start, arrivals)
            case None => ending == None
            case Some(kind) => ending == Some(Result(kind, true, TurnsTold(arrivals), LatestStop(arrivals)))
  {
    hide After, OutputCalls, CallsReceived, CallsDropped, LatestStop, UserMessages, LimitMet, Ending, TurnsTold;
    RetryCountIsReceivedLessDropped(o, start, arrivals, toAck);
    OpenRun(o, start, arrivals, toAck);
    OutputTellsEvents(o, start, arrivals, toAck);
    EndingFrom(o, start, arrivals, After(o, Begin(start), arrivals, toAck));
  }

  lemma {:induction false} HandledEndings(o: Options, t: Turn, arrivals: seq<Arrival>, toAck: seq<nat>, initialCalls: nat, k: nat)
    requires k < |arrivals|
    ensures var n := Handled(o, t, arrivals, toAck, initialCalls);
            && (k + 1 < n ==> Ending(o, After(o, t, arrivals[..k + 1], toAck), arrivals[k], initialCalls) == None)
            && (k + 1 == n < |arrivals| ==> Ending(o, After(o, t, arrivals[..k + 1], toAck), arrivals[k], initialCalls).Some?)
            && 0 < n
    decreases |arrivals|
  {
    hide Handle, Ending;
    var next := Handle(o, t, arrivals[0].event, toAck);
    AfterFirst(o, t, arrivals[..k + 1], toAck);
    assert arrivals[..k + 1][1..] == arrivals[1..][..k];
    if k > 0 && Ending(o, next, arrivals[0], initialCalls) == None {
      HandledEndings(o, next, arrivals[1..], toAck, initialCalls, k - 1);
    }
  }

  /** How many arrivals are handled: up to the first that meets a limit, or all. */
  function Taken(o: Options, start: seq<Message>, arrivals: seq<Arrival>): (n: nat)
    ensures n <= |arrivals|
  {
    if arrivals == [] then 0
    else
      var n := Taken(o, start, arrivals[..|arrivals| - 1]);
      if n < |arrivals| - 1 || (n > 0 && LimitMet(o, start, arrivals[..n]).Some?) then n else |arrivals|
  }

  lemma {:induction false} TakenIsFirst(o: Options, start: seq<Message>, arrivals: seq<Arrival>)
    ensures var n := Taken(o, start, arrivals);
            && (forall k :: 0 < k < n ==> LimitMet(o, start, arrivals[..k]) == None)
            && (n < |arrivals| ==> n > 0 && LimitMet(o, start, arrivals[..n]).Some?)
    decreases |arrivals|
  {
    hide LimitMet;
    if arrivals != [] {
      var init := arrivals[..|arrivals| - 1];
      TakenIsFirst(o, start, init);
      assert forall k :: 0 <= k <= |init| ==> init[..k] == arrivals[..k];
    }
  }

  lemma HandledIsTaken(o: Options, start: seq<Message>, arrivals: seq<Arrival>, toAck: seq<nat>)
    ensures Handled(o, Begin(start), arrivals, toAck, OutputCalls(start)) == Taken(o, start, arrivals)
  {
    hide LimitMet, Ending, After, OutputCalls, Handled, Taken;
    var n := Handled(o, Begin(start), arrivals, toAck, OutputCalls(start));
    var taken := Taken(o, start, arrivals);
    TakenIsFirst(o, start, arrivals);
    if arrivals == [] {
    } else {
      HandledEndings(o, Begin(start), arrivals, toAck, OutputCalls(start), 0);
      if n < taken {
        HandledEndings(o, Begin(start), arrivals, toAck, OutputCalls(start), n - 1);
        EndingIsLimit(o, start, arrivals[..n], toAck);
      } else if taken < n {
        HandledEndings(o, Begin(start), arrivals, toAck, OutputCalls(start), taken - 1);
        EndingIsLimit(o, start, arrivals[..taken], toAck);
      }
    }
  }

  /** The last assistant or user message of a conversation is at `i`. */
  predicate LastTurnAt(messages: seq<Message>, i: int) {
    && 0 <= i < |messages| && (messages[i].Assistant? || messages[i].User?)
    && forall j :: i < j < |messages| ==> !messages[j].Assistant? && !messages[j].User?
  }

  /** A conversation has come to a proper end: with text or thinking, with tool results only, or the model said so. */
  predicate ProperEnd(m: Message, stopReason: Option<string>) {
    || (m.Assistant? && (m.lastBlock.Text? || m.lastBlock.Thinking?))
    || (m.User? && (m.toolResultsOnly || stopReason == Some("end_turn")))
  }

  lemma {:induction false} LastTurnIs(messages: seq<Message>, i: int)
    ensures LastTurnAt(messages, i) ==> LastTurnMessage(messages) == Some(messages[i])
    ensures LastTurnMessage(messages).Some? ==> exists k :: LastTurnAt(messages, k)
  {
    if messages != [] {
      var last := |messages| - 1;
      var init := messages[..last];
      if messages[last].Assistant? || messages[last].User? {
        assert LastTurnAt(messages, last);
      } else {
        LastTurnIs(init, i);
        assert LastTurnAt(messages, i) ==> LastTurnAt(init, i);
        if k :| LastTurnAt(init, k) { assert LastTurnAt(messages, k); }
      }
    }
  }

  lemma FinalResultIs(t: Turn)
    ensures var messages := t.messages;
            var r := FinalResult(t);
            && r.Result? && r.numTurns == t.turnCount && r.stopReason == t.lastStopReason
            && (r.kind == Success || r.kind == ErrorDuringExecution)
            && (r.kind == Success <==> exists i :: LastTurnAt(messages, i) && ProperEnd(messages[i], t.lastStopReason))
            && (r.kind == ErrorDuringExecution ==> r.isError)
            && (forall i :: r.kind == Success && LastTurnAt(messages, i) ==> (r.isError <==> messages[i].Assistant? && messages[i].isApiError))
  {
    hide LastTurnMessage;
    var messages := t.messages;
    forall i ensures LastTurnAt(messages, i) ==> LastTurnMessage(messages) == Some(messages[i]) {
      LastTurnIs(messages, i);
    }
    LastTurnIs(messages, 0);
  }

  /** The result of every run. It is told by the first limit met, if there is one: the turns or the budget used up, or
      the structured-output calls. Otherwise it is a success if and only if the last
      assistant or user message of the transcript, and of the conversation as well,
      is a proper end, and then an error only if that message is an API error. */
  lemma ResultIs(o: Options, start: seq<Message>, arrivals: seq<Arrival>, toAck: seq<nat>)
    ensures var end := Consume(o, Begin(start), arrivals, toAck, OutputCalls(start));
            var n := Taken(o, start, arrivals);
            var stop := LatestStop(arrivals[..n]);
            && end.out != []
            && var r := end.out[|end.out| - 1];
            && r.Result? && r.stopReason == stop && r.numTurns == TurnsTold(arrivals[..n])
            && (n > 0 && LimitMet(o, start, arrivals[..n]).Some? ==> r.kind == LimitMet(o, start, arrivals[..n]).value && r.isError)
            && (n == 0 || LimitMet(o, start, arrivals[..n]) == None ==>
                  && n == |arrivals| && (r.kind == Success || r.kind == ErrorDuringExecution)
                  && (r.kind == Success <==> exists i :: LastTurnAt(end.messages, i) && ProperEnd(end.messages[i], stop))
                  && (r.kind == ErrorDuringExecution ==> r.isError)
                  && (forall i :: r.kind == Success && LastTurnAt(end.messages, i) ==>
                        (r.isError <==> end.messages[i].Assistant? && end.messages[i].isApiError)))
  {
    hide LimitMet, Ending, After, OutputCalls, Handled, Taken, Consume, FinalResult, LastTurnAt, ProperEnd, LatestStop, UserMessages;
    var n := Taken(o, start, arrivals);
    var taken := arrivals[..n];
    HandledIsTaken(o, start, arrivals, toAck);
    TakenIsFirst(o, start, arrivals);
    ConsumeIsAfterPlusResult(o, Begin(start), arrivals, toAck, OutputCalls(start));
    OpenRun(o, start, taken, toAck);
    OutputTellsEvents(o, start, taken, toAck);
    FinalResultIs(After(o, Begin(start), taken, toAck));
    if n > 0 { EndingIsLimit(o, start, taken, toAck); }
    NoLimitTurns(o, start, taken);
  }

  lemma NoLimitTurns(o: Options, start: seq<Message>, arrivals: seq<Arrival>)
    ensures arrivals == [] || LimitMet(o, start, arrivals) == None ==> TurnsTold(arrivals) == 1 + UserMessages(arrivals)
  {
  }

  /** Either store gives the same verdict. */
  lemma SameVerdict(o: Options, start: seq<Message>, arrivals: seq<Arrival>, toAck: seq<nat>, stopReason: Option<string>)
    ensures var end := Consume(o, Begin(start), arrivals, toAck, OutputCalls(start));
            (exists i :: LastTurnAt(end.messages, i) && ProperEnd(end.messages[i], stopReason)) <==>
            (exists i :: LastTurnAt(end.mutableMessages, i) && ProperEnd(end.mutableMessages[i], stopReason))
  {
    hide LimitMet, Ending, After, OutputCalls, Handled, Consume, FinalResult, ProperEnd, LastTurnMessage;
    var n := Handled(o, Begin(start), arrivals, toAck, OutputCalls(start));
    ConsumeIsAfterPlusResult(o, Begin(start), arrivals, toAck, OutputCalls(start));
    SameLastTurnMessage(o, start, arrivals[..n], toAck);
    var end := Consume(o, Begin(start), arrivals, toAck, OutputCalls(start));
    if exists i :: LastTurnAt(end.messages, i) && ProperEnd(end.messages[i], stopReason) {
      ProperEndSame(end.messages, end.mutableMessages, stopReason);
    }
    if exists i :: LastTurnAt(end.mutableMessages, i) && ProperEnd(end.mutableMessages[i], stopReason) {
      ProperEndSame(end.mutableMessages, end.messages, stopReason);
    }
  }

  lemma ProperEndSame(a: seq<Message>, b: seq<Message>, stopReason: Option<string>)
    requires LastTurnMessage(a) == LastTurnMessage(b)
    requires exists i :: LastTurnAt(a, i) && ProperEnd(a[i], stopReason)
    ensures exists i :: LastTurnAt(b, i) && ProperEnd(b[i], stopReason)
  {
    hide LastTurnMessage, ProperEnd;
    var i :| LastTurnAt(a, i) && ProperEnd(a[i], stopReason);
    LastTurnIs(a, i);
    LastTurnIs(b, 0);
    var k :| LastTurnAt(b, k);
    LastTurnIs(b, k);
  }
}
