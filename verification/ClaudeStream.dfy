/**
 * The Anthropic stream decoder (service/src/providers/claude.provider.ts): tool blocks opened, fed and
 * closed by index, with usage arriving in two places.
 */
module ClaudeStream {
  import opened Json
  import opened RuntimeTypes
  import opened Sequences
  import opened Wrappers
  import Trimming = Text

  /** JSON.parse, which is not modelled: None is a syntax error. */
  type JsonParser = string -> Option<Json>

  datatype StartUsage = StartUsage(inputTokens: Option<real>, outputTokens: Option<real>)

  datatype ContentBlock = ContentBlock(kind: string, id: Option<string>, name: Option<string>)

  datatype BlockDelta = TextDelta(text: string) | InputJsonDelta(partialJson: Option<string>) | OtherDelta

  datatype ClaudeEvent =
    | MessageStart(usage: Option<StartUsage>)
    | ContentBlockStart(index: Option<int>, contentBlock: Option<ContentBlock>)
    | ContentBlockDelta(index: Option<int>, delta: BlockDelta)
    | ContentBlockStop(index: Option<int>)
    | MessageDelta(stopReason: Option<string>, outputTokens: Option<real>)
    | ErrorEvent(code: Option<string>, message: Option<string>)
    | OtherEvent

  /** One framed message, with its payload decoded. */
  datatype Frame =
    | Blank
    | Malformed(payload: string)
    | NullPayload
    | Payload(event: ClaudeEvent)

  function MapStopReason(value: Option<string>): Option<FinishReason> {
    match value
    case Some("end_turn") => Some(Stop)
    case Some("stop_sequence") => Some(Stop)
    case Some("tool_use") => Some(ToolCalls)
    case Some("max_tokens") => Some(Length)
    case _ => None
  }

  function ParseToolInput(parse: JsonParser, raw: string): Json {
    if Trimming.IsBlank(raw) then Object(map[])
    else
      var v := parse(raw);
      if v.Some? && IsObjectLike(v.value) then v.value else Object(map[])
  }

  // ---- The tool machine ----

  /** What a frame does to the tool blocks. */
  datatype ToolAction =
    | Start(index: int, id: string, name: string)
    | Feed(index: int, text: string)
    | Close(index: int)
    | Nothing

  function ActionOf(f: Frame): ToolAction {
    match f
    case Payload(ContentBlockStart(Some(i), Some(b))) =>
      if b.kind == "tool_use" then Start(i, b.id.GetOr(""), b.name.GetOr("")) else Nothing
    case Payload(ContentBlockDelta(Some(i), InputJsonDelta(Some(t)))) => Feed(i, t)
    case Payload(ContentBlockStop(Some(i))) => Close(i)
    case _ => Nothing
  }

  function Actions(frames: seq<Frame>): (r: seq<ToolAction>) {
    seq(|frames|, k requires 0 <= k < |frames| => ActionOf(frames[k]))
  }

  /** An open block. The source's Map iterates in insertion order, so it is a sequence here. */
  datatype ToolBlock = ToolBlock(index: int, id: string, name: string, partialJson: string)

  function Position(open: seq<ToolBlock>, i: int): (k: nat)
    ensures k <= |open|
    ensures k < |open| ==> open[k].index == i
    ensures forall j :: 0 <= j < k ==> open[j].index != i
  {
    if open == [] || open[0].index == i then 0 else 1 + Position(open[1..], i)
  }

  function BlockCall(parse: JsonParser, b: ToolBlock): ToolCall {
    ToolCall(b.id, b.name, ParseToolInput(parse, b.partialJson))
  }

  function Act(open: seq<ToolBlock>, a: ToolAction): seq<ToolBlock> {
    if a.Nothing? then open
    else
      var k := Position(open, a.index);
      match a
      case Start(i, id, name) =>
        var b := ToolBlock(i, id, name, "");
        if k < |open| then open[k := b] else open + [b]
      case Feed(_, text) =>
        if k < |open| then open[k := open[k].(partialJson := open[k].partialJson + text)] else open
      case Close(_) =>
        if k < |open| then open[..k] + open[k + 1..] else open
  }

  function CallOnClose(parse: JsonParser, open: seq<ToolBlock>, a: ToolAction): seq<ToolCall> {
    if a.Close? && Position(open, a.index) < |open| then [BlockCall(parse, open[Position(open, a.index)])] else []
  }

  function CallEvents(calls: seq<ToolCall>): seq<StreamEvent> {
    seq(|calls|, k requires 0 <= k < |calls| => ToolCallEvent(calls[k]))
  }

  function Drained(parse: JsonParser, open: seq<ToolBlock>): seq<ToolCall> {
    seq(|open|, k requires 0 <= k < |open| => BlockCall(parse, open[k]))
  }

  // ---- The events, frame by frame ----

  /** The text or error events a frame yields. */
  function DirectEvents(f: Frame): seq<StreamEvent> {
    match f
    case Malformed(payload) => [Error("PARSE_FAILED", "Invalid SSE chunk: " + payload)]
    case Payload(ContentBlockDelta(_, TextDelta(text))) => if text != "" then [Text(text)] else []
    case Payload(ErrorEvent(code, message)) =>
      [Error(code.GetOr("PROVIDER_ERROR"), message.GetOr("claude stream error"))]
    case _ => []
  }

  function FrameEvents(parse: JsonParser, open: seq<ToolBlock>, f: Frame): seq<StreamEvent> {
    DirectEvents(f) + CallEvents(CallOnClose(parse, open, ActionOf(f)))
  }

  function EventsFrom(parse: JsonParser, open: seq<ToolBlock>, frames: seq<Frame>): seq<StreamEvent>
    decreases |frames|
  {
    if frames == [] || frames[0].NullPayload? then []
    else
      FrameEvents(parse, open, frames[0]) + EventsFrom(parse, Act(open, ActionOf(frames[0])), frames[1..])
  }

  function OpenAfter(open: seq<ToolBlock>, frames: seq<Frame>): seq<ToolBlock>
    decreases |frames|
  {
    if frames == [] || frames[0].NullPayload? then open
    else OpenAfter(Act(open, ActionOf(frames[0])), frames[1..])
  }

  function InputReport(f: Frame): Option<real> {
    match f
    case Payload(MessageStart(Some(u))) => Some(u.inputTokens.GetOr(0.0))
    case _ => None
  }

  function OutputReport(f: Frame): Option<real> {
    match f
    case Payload(MessageStart(Some(u))) => Some(u.outputTokens.GetOr(0.0))
    case Payload(MessageDelta(_, Some(t))) => Some(t)
    case _ => None
  }

  function MappedStop(f: Frame): Option<FinishReason> {
    match f
    case Payload(MessageDelta(reason, _)) => MapStopReason(reason)
    case _ => None
  }

  /** The latest input and the latest output count, and their sum; absent when no frame carried usage. */
  function Usage(frames: seq<Frame>): Option<TokenUsage> {
    var output := LastSome(OutputReport, frames);
    if output.None? then None
    else
      var input := LastSome(InputReport, frames).GetOr(0.0);
      Some(TokenUsage(input, output.value, input + output.value))
  }

  ghost predicate Fails(frames: seq<Frame>, broken: bool) {
    broken || NullPayload in frames
  }

  ghost function Decode(parse: JsonParser, frames: seq<Frame>, broken: bool): StreamRun {
    var events := EventsFrom(parse, [], frames);
    if Fails(frames, broken) then StreamRun(events, true)
    else
      StreamRun(events + CallEvents(Drained(parse, OpenAfter([], frames)))
                + [Done(Usage(frames), LastSome(MappedStop, frames))], false)
  }

  // ---- The decoder itself ----

  datatype Meter =
    Meter(promptTokens: real, completionTokens: real, sawUsage: bool, finishReason: Option<FinishReason>)

  ghost predicate MeterHolds(m: Meter, frames: seq<Frame>) {
    && m.promptTokens == LastSome(InputReport, frames).GetOr(0.0)
    && m.completionTokens == LastSome(OutputReport, frames).GetOr(0.0)
    && m.sawUsage == LastSome(OutputReport, frames).Some?
    && m.finishReason == LastSome(MappedStop, frames)
  }

  method ReadMeter(m: Meter, frame: Frame, ghost seen: seq<Frame>) returns (r: Meter)
    requires MeterHolds(m, seen)
    ensures MeterHolds(r, seen + [frame])
  {
    LastSomeSnoc(InputReport, seen, frame);
    LastSomeSnoc(OutputReport, seen, frame);
    LastSomeSnoc(MappedStop, seen, frame);
    r := m;
    match frame {
      case Payload(MessageStart(Some(usage))) =>
        r := r.(promptTokens := usage.inputTokens.GetOr(0.0), completionTokens := usage.outputTokens.GetOr(0.0),
                sawUsage := true);
      case Payload(MessageDelta(stopReason, outputTokens)) =>
        r := r.(finishReason := MapStopReason(stopReason).OrElse(r.finishReason));
        if outputTokens.Some? {
          r := r.(completionTokens := outputTokens.value, sawUsage := true);
        }
      case _ =>
    }
  }

  /** When the stream ends: the blocks still open, oldest first, and then `done`. */
  method Finish(parse: JsonParser, toolBlocks: seq<ToolBlock>, meter: Meter, ghost frames: seq<Frame>)
    returns (events: seq<StreamEvent>)
    requires MeterHolds(meter, frames)
    ensures events == CallEvents(Drained(parse, toolBlocks)) + [Done(Usage(frames), LastSome(MappedStop, frames))]
  {
    events := [];
    for k := 0 to |toolBlocks|
      invariant events == CallEvents(Drained(parse, toolBlocks))[..k]
    {
      events := events + [ToolCallEvent(BlockCall(parse, toolBlocks[k]))];
    }
    var usage := if meter.sawUsage
                 then Some(TokenUsage(meter.promptTokens, meter.completionTokens,
                   meter.promptTokens + meter.completionTokens))
                 else None;
    events := events + [Done(usage, meter.finishReason)];
  }

  /** After n frames: what is emitted and what is open determine the whole run. */
  ghost predicate Reading(parse: JsonParser, frames: seq<Frame>, n: nat, events: seq<StreamEvent>, open: seq<ToolBlock>)
    requires n <= |frames|
  {
    && NullPayload !in frames[..n]
    && events + EventsFrom(parse, open, frames[n..]) == EventsFrom(parse, [], frames)
    && OpenAfter(open, frames[n..]) == OpenAfter([], frames)
  }

  lemma {:induction false} EventsUnfold(parse: JsonParser, open: seq<ToolBlock>, frames: seq<Frame>)
    requires frames != [] && !frames[0].NullPayload?
    ensures EventsFrom(parse, open, frames) ==
            FrameEvents(parse, open, frames[0]) + EventsFrom(parse, Act(open, ActionOf(frames[0])), frames[1..])
    ensures OpenAfter(open, frames) == OpenAfter(Act(open, ActionOf(frames[0])), frames[1..])
  {}

  lemma {:induction false} ReadingStep(
      parse: JsonParser, frames: seq<Frame>, n: nat, events: seq<StreamEvent>, open: seq<ToolBlock>)
    requires n < |frames| && Reading(parse, frames, n, events, open) && !frames[n].NullPayload?
    ensures Reading(parse, frames, n + 1, events + FrameEvents(parse, open, frames[n]), Act(open, ActionOf(frames[n])))
  {
    var f, from := frames[n], frames[n..];
    assert from[0] == f && from[1..] == frames[n + 1..];
    EventsUnfold(parse, open, from);
    var now, later := FrameEvents(parse, open, f), EventsFrom(parse, Act(open, ActionOf(f)), frames[n + 1..]);
    calc {
      events + now + later;
      events + (now + later);
      events + EventsFrom(parse, open, from);
    }
  }

  lemma {:induction false} ReadingStops(
      parse: JsonParser, frames: seq<Frame>, n: nat, events: seq<StreamEvent>, open: seq<ToolBlock>)
    requires n <= |frames| && Reading(parse, frames, n, events, open)
    requires n < |frames| ==> frames[n].NullPayload?
    ensures events == EventsFrom(parse, [], frames) && open == OpenAfter([], frames)
    ensures NullPayload in frames <==> n < |frames|
  {
    assert n == |frames| ==> frames[..n] == frames && frames[n..] == [];
  }

  method ParseClaudeStream(parse: JsonParser, frames: seq<Frame>, broken: bool)
    returns (events: seq<StreamEvent>, failed: bool)
    ensures StreamRun(events, failed) == Decode(parse, frames, broken)
  {
    events := [];
    var toolBlocks: seq<ToolBlock> := [];
    var meter := Meter(0.0, 0.0, false, None);
    assert frames[0..] == frames;

    for n := 0 to |frames|
      invariant Reading(parse, frames, n, events, toolBlocks)
      invariant MeterHolds(meter, frames[..n])
    {
      var frame := frames[n];
      if frame.NullPayload? {
        ReadingStops(parse, frames, n, events, toolBlocks);
        return events, true;
      }
      ReadingStep(parse, frames, n, events, toolBlocks);
      events := events + FrameEvents(parse, toolBlocks, frame);
      toolBlocks := Act(toolBlocks, ActionOf(frame));
      meter := ReadMeter(meter, frame, frames[..n]);
      assert frames[..n + 1] == frames[..n] + [frame];
    }

    ReadingStops(parse, frames, |frames|, events, toolBlocks);
    assert frames[..|frames|] == frames;
    if broken {
      return events, true;
    }
    var tail := Finish(parse, toolBlocks, meter, frames);
    return events + tail, false;
  }

  // ---- Every tool block is delivered once, whole ----

  /** The text fed to index i up to its close. */
  function TextUntilClose(actions: seq<ToolAction>, i: int): string {
    if actions == [] then ""
    else if actions[0].Nothing? || actions[0].index != i then TextUntilClose(actions[1..], i)
    else if actions[0].Feed? then actions[0].text + TextUntilClose(actions[1..], i)
    else ""
  }

  /** Index i is started again before it is closed: the block open at i is overwritten. */
  predicate Restarted(actions: seq<ToolAction>, i: int) {
    actions != [] &&
    if actions[0].Nothing? || actions[0].Feed? || actions[0].index != i then Restarted(actions[1..], i)
    else actions[0].Start?
  }

  function CallDue(parse: JsonParser, b: ToolBlock, rest: seq<ToolAction>): multiset<ToolCall> {
    if Restarted(rest, b.index) then multiset{}
    else multiset{BlockCall(parse, b.(partialJson := b.partialJson + TextUntilClose(rest, b.index)))}
  }

  /** The call due from the first action, when it is a start that is not overwritten. */
  function StartDue(parse: JsonParser, actions: seq<ToolAction>): multiset<ToolCall>
    requires actions != []
  {
    match actions[0]
    case Start(i, id, name) => CallDue(parse, ToolBlock(i, id, name, ""), actions[1..])
    case _ => multiset{}
  }

  /** One call for each start that is not overwritten, with the text fed while it was open. */
  function CallsDue(parse: JsonParser, actions: seq<ToolAction>): multiset<ToolCall> {
    if actions == [] then multiset{} else StartDue(parse, actions) + CallsDue(parse, actions[1..])
  }

  function OpenCallsDue(parse: JsonParser, open: seq<ToolBlock>, rest: seq<ToolAction>): multiset<ToolCall> {
    if open == [] then multiset{}
    else OpenCallsDue(parse, open[..|open| - 1], rest) + CallDue(parse, open[|open| - 1], rest)
  }

  ghost predicate DistinctIndices(open: seq<ToolBlock>) {
    forall j, k :: 0 <= j < k < |open| ==> open[j].index != open[k].index
  }

  lemma {:induction false} ActDistinct(open: seq<ToolBlock>, a: ToolAction)
    requires DistinctIndices(open)
    ensures DistinctIndices(Act(open, a))
  {}

  lemma {:induction false} OpenCallsDueSnoc(
      parse: JsonParser, open: seq<ToolBlock>, b: ToolBlock, rest: seq<ToolAction>)
    ensures OpenCallsDue(parse, open + [b], rest) == OpenCallsDue(parse, open, rest) + CallDue(parse, b, rest)
  {
    assert (open + [b])[..|open|] == open;
  }

  lemma {:induction false} OpenCallsDueSplit(
      parse: JsonParser, a: seq<ToolBlock>, b: seq<ToolBlock>, rest: seq<ToolAction>)
    ensures OpenCallsDue(parse, a + b, rest) == OpenCallsDue(parse, a, rest) + OpenCallsDue(parse, b, rest)
    decreases |b|
  {
    if b == [] {
      assert a + b == a;
    } else {
      var init, x := b[..|b| - 1], b[|b| - 1];
      assert b == init + [x] && a + b == (a + init) + [x];
      OpenCallsDueSplit(parse, a, init, rest);
      OpenCallsDueSnoc(parse, a + init, x, rest);
      OpenCallsDueSnoc(parse, init, x, rest);
    }
  }

  /** An action of another index leaves the calls due from the open blocks as they were. */
  lemma {:induction false} OpenCallsDueSkip(parse: JsonParser, open: seq<ToolBlock>, actions: seq<ToolAction>)
    requires actions != []
    requires actions[0].Nothing? || forall b :: b in open ==> b.index != actions[0].index
    ensures OpenCallsDue(parse, open, actions) == OpenCallsDue(parse, open, actions[1..])
  {
    if open != [] {
      OpenCallsDueSkip(parse, open[..|open| - 1], actions);
    }
  }

  /** Taking one block out of the open ones. */
  lemma {:induction false} OpenCallsDueAt(parse: JsonParser, open: seq<ToolBlock>, k: nat, rest: seq<ToolAction>)
    requires k < |open|
    ensures OpenCallsDue(parse, open, rest) ==
            OpenCallsDue(parse, open[..k] + open[k + 1..], rest) + CallDue(parse, open[k], rest)
  {
    var before, one, after := open[..k], [open[k]], open[k + 1..];
    assert open == before + one + after;
    OpenCallsDueSplit(parse, before + one, after, rest);
    OpenCallsDueSplit(parse, before, one, rest);
    OpenCallsDueSplit(parse, before, after, rest);
  }

  lemma {:induction false} FeedDue(parse: JsonParser, b: ToolBlock, actions: seq<ToolAction>)
    requires actions != [] && actions[0].Feed? && actions[0].index == b.index
    ensures CallDue(parse, b, actions) ==
            CallDue(parse, b.(partialJson := b.partialJson + actions[0].text), actions[1..])
  {
    var t, u := actions[0].text, TextUntilClose(actions[1..], b.index);
    assert b.partialJson + (t + u) == b.partialJson + t + u;
  }

  lemma {:induction false} CloseDue(parse: JsonParser, b: ToolBlock, actions: seq<ToolAction>)
    requires actions != [] && actions[0].Close? && actions[0].index == b.index
    ensures CallDue(parse, b, actions) == multiset{BlockCall(parse, b)}
  {
    assert b.partialJson + "" == b.partialJson;
  }

  /** What was due before an action is what it emits plus what is due after it. */
  ghost predicate Conserves(parse: JsonParser, open: seq<ToolBlock>, actions: seq<ToolAction>)
    requires actions != []
  {
    OpenCallsDue(parse, open, actions) + StartDue(parse, actions) ==
    multiset(CallOnClose(parse, open, actions[0])) + OpenCallsDue(parse, Act(open, actions[0]), actions[1..])
  }

  lemma {:induction false} OtherConserves(parse: JsonParser, open: seq<ToolBlock>, actions: seq<ToolAction>)
    requires actions != [] && (actions[0].Nothing? || Position(open, actions[0].index) == |open|)
    ensures Conserves(parse, open, actions)
  {
    var a, rest := actions[0], actions[1..];
    OpenCallsDueSkip(parse, open, actions);
    if a.Start? {
      var b := ToolBlock(a.index, a.id, a.name, "");
      assert Act(open, a)[..|open|] == open;
    }
  }

  lemma {:induction false} CloseConserves(parse: JsonParser, open: seq<ToolBlock>, actions: seq<ToolAction>)
    requires DistinctIndices(open) && actions != [] && actions[0].Close? && Position(open, actions[0].index) < |open|
    ensures Conserves(parse, open, actions)
  {
    var k := Position(open, actions[0].index);
    var others := open[..k] + open[k + 1..];
    OpenCallsDueAt(parse, open, k, actions);
    OpenCallsDueSkip(parse, others, actions);
    CloseDue(parse, open[k], actions);
    assert Act(open, actions[0]) == others;
    assert CallOnClose(parse, open, actions[0]) == [BlockCall(parse, open[k])];
  }

  /** Putting another block in the place of an open one changes only what is due from that place. */
  lemma {:induction false} ReplaceDue(
      parse: JsonParser, open: seq<ToolBlock>, k: nat, b: ToolBlock, actions: seq<ToolAction>)
    returns (others: multiset<ToolCall>)
    requires DistinctIndices(open) && actions != [] && !actions[0].Nothing?
    requires k < |open| && open[k].index == actions[0].index == b.index
    ensures OpenCallsDue(parse, open, actions) == others + CallDue(parse, open[k], actions)
    ensures OpenCallsDue(parse, open[k := b], actions[1..]) == others + CallDue(parse, b, actions[1..])
  {
    var rest := open[..k] + open[k + 1..];
    others := OpenCallsDue(parse, rest, actions);
    OpenCallsDueAt(parse, open, k, actions);
    OpenCallsDueSkip(parse, rest, actions);
    OpenCallsDueAt(parse, open[k := b], k, actions[1..]);
    assert open[k := b][..k] + open[k := b][k + 1..] == rest;
  }

  /** When the action replaces block k by b, and what was due from k is now due from b or from the start. */
  lemma {:induction false} ReplaceConserves(
      parse: JsonParser, open: seq<ToolBlock>, k: nat, b: ToolBlock, actions: seq<ToolAction>)
    requires DistinctIndices(open) && actions != [] && !actions[0].Nothing? && !actions[0].Close?
    requires k < |open| && open[k].index == actions[0].index == b.index
    requires Act(open, actions[0]) == open[k := b]
    requires CallDue(parse, open[k], actions) + StartDue(parse, actions) == CallDue(parse, b, actions[1..])
    ensures Conserves(parse, open, actions)
  {
    var others := ReplaceDue(parse, open, k, b, actions);
    assert multiset(CallOnClose(parse, open, actions[0])) == multiset{};
  }

  lemma {:induction false} StartConserves(parse: JsonParser, open: seq<ToolBlock>, actions: seq<ToolAction>)
    requires DistinctIndices(open) && actions != [] && actions[0].Start? && Position(open, actions[0].index) < |open|
    ensures Conserves(parse, open, actions)
  {
    var k, b := Position(open, actions[0].index), ToolBlock(actions[0].index, actions[0].id, actions[0].name, "");
    ReplaceConserves(parse, open, k, b, actions);
  }

  lemma {:induction false} FeedConserves(parse: JsonParser, open: seq<ToolBlock>, actions: seq<ToolAction>)
    requires DistinctIndices(open) && actions != [] && actions[0].Feed? && Position(open, actions[0].index) < |open|
    ensures Conserves(parse, open, actions)
  {
    var k := Position(open, actions[0].index);
    FeedDue(parse, open[k], actions);
    ReplaceConserves(parse, open, k, open[k].(partialJson := open[k].partialJson + actions[0].text), actions);
  }

  lemma {:induction false} ActConserves(parse: JsonParser, open: seq<ToolBlock>, actions: seq<ToolAction>)
    requires DistinctIndices(open) && actions != []
    ensures Conserves(parse, open, actions)
  {
    if actions[0].Nothing? || Position(open, actions[0].index) == |open| {
      OtherConserves(parse, open, actions);
    } else if actions[0].Close? {
      CloseConserves(parse, open, actions);
    } else if actions[0].Start? {
      StartConserves(parse, open, actions);
    } else {
      FeedConserves(parse, open, actions);
    }
  }

  lemma {:induction false} CallsInCallEvents(calls: seq<ToolCall>)
    ensures CallsIn(CallEvents(calls)) == calls
  {
    if calls != [] {
      var init := calls[..|calls| - 1];
      assert CallEvents(calls)[..|calls| - 1] == CallEvents(init);
      CallsInCallEvents(init);
    }
  }

  lemma {:induction false} DueNow(parse: JsonParser, b: ToolBlock)
    ensures CallDue(parse, b, []) == multiset{BlockCall(parse, b)}
  {
    assert b.partialJson + "" == b.partialJson;
  }

  lemma {:induction false} DrainedSnoc(parse: JsonParser, open: seq<ToolBlock>, b: ToolBlock)
    ensures multiset(Drained(parse, open + [b])) == multiset(Drained(parse, open)) + multiset{BlockCall(parse, b)}
  {
    assert Drained(parse, open + [b]) == Drained(parse, open) + [BlockCall(parse, b)];
  }

  lemma {:induction false} DrainedDueStep(parse: JsonParser, open: seq<ToolBlock>, b: ToolBlock)
    requires OpenCallsDue(parse, open, []) == multiset(Drained(parse, open))
    ensures OpenCallsDue(parse, open + [b], []) == multiset(Drained(parse, open + [b]))
  {
    OpenCallsDueSnoc(parse, open, b, []);
    DueNow(parse, b);
    DrainedSnoc(parse, open, b);
  }

  lemma {:induction false} DrainedDue(parse: JsonParser, open: seq<ToolBlock>)
    ensures OpenCallsDue(parse, open, []) == multiset(Drained(parse, open))
  {
    if open != [] {
      var init, b := open[..|open| - 1], open[|open| - 1];
      DrainedDue(parse, init);
      DrainedDueStep(parse, init, b);
      assert open == init + [b];
    }
  }

  lemma {:induction false} FrameCalls(parse: JsonParser, open: seq<ToolBlock>, f: Frame, later: seq<StreamEvent>)
    ensures CallsIn(FrameEvents(parse, open, f) + later) == CallOnClose(parse, open, ActionOf(f)) + CallsIn(later)
  {
    var direct, calls := DirectEvents(f), CallEvents(CallOnClose(parse, open, ActionOf(f)));
    FlatMapAppend(CallOf, direct + calls, later);
    FlatMapAppend(CallOf, direct, calls);
    FlatMapNothing(CallOf, direct);
    CallsInCallEvents(CallOnClose(parse, open, ActionOf(f)));
  }

  /** The calls a run from the given open blocks makes: those emitted on the way and those drained. */
  function RunCalls(parse: JsonParser, open: seq<ToolBlock>, frames: seq<Frame>): multiset<ToolCall> {
    multiset(CallsIn(EventsFrom(parse, open, frames))) + multiset(Drained(parse, OpenAfter(open, frames)))
  }

  lemma {:induction false} RunCallsUnfold(parse: JsonParser, open: seq<ToolBlock>, frames: seq<Frame>)
    requires frames != [] && !frames[0].NullPayload?
    ensures var a := ActionOf(frames[0]);
            RunCalls(parse, open, frames) ==
              multiset(CallOnClose(parse, open, a)) + RunCalls(parse, Act(open, a), frames[1..])
  {
    var a := ActionOf(frames[0]);
    EventsUnfold(parse, open, frames);
    FrameCalls(parse, open, frames[0], EventsFrom(parse, Act(open, a), frames[1..]));
  }

  /** What the frames emit and leave open is what was due: the invariant of the whole run. */
  lemma {:induction false} RunConserves(parse: JsonParser, open: seq<ToolBlock>, frames: seq<Frame>)
    requires DistinctIndices(open) && NullPayload !in frames
    ensures RunCalls(parse, open, frames) ==
            OpenCallsDue(parse, open, Actions(frames)) + CallsDue(parse, Actions(frames))
    decreases |frames|
  {
    if frames == [] {
      DrainedDue(parse, open);
    } else {
      var a, rest, actions := ActionOf(frames[0]), frames[1..], Actions(frames);
      var open' := Act(open, a);
      assert actions[0] == a && actions[1..] == Actions(rest);
      ActDistinct(open, a);
      RunCallsUnfold(parse, open, frames);
      RunConserves(parse, open', rest);
      ActConserves(parse, open, actions);
      var emitted := multiset(CallOnClose(parse, open, a));
      calc {
        RunCalls(parse, open, frames);
        emitted + (OpenCallsDue(parse, open', actions[1..]) + CallsDue(parse, actions[1..]));
        (emitted + OpenCallsDue(parse, open', actions[1..])) + CallsDue(parse, actions[1..]);
        (OpenCallsDue(parse, open, actions) + StartDue(parse, actions)) + CallsDue(parse, actions[1..]);
      }
    }
  }

  /** Every tool block that is not overwritten is delivered exactly once, with all the text fed to it. */
  lemma {:induction false} ToolBlockConservation(parse: JsonParser, frames: seq<Frame>)
    requires NullPayload !in frames
    ensures multiset(CallsIn(Decode(parse, frames, false).events)) == CallsDue(parse, Actions(frames))
  {
    var events, drained := EventsFrom(parse, [], frames), Drained(parse, OpenAfter([], frames));
    RunConserves(parse, [], frames);
    FlatMapAppend(CallOf, events, CallEvents(drained));
    CallsInCallEvents(drained);
    FlatMapSnoc(CallOf, events + CallEvents(drained), Done(Usage(frames), LastSome(MappedStop, frames)));
  }

  function StartCount(actions: seq<ToolAction>): nat {
    if actions == [] then 0 else (if actions[0].Start? then 1 else 0) + StartCount(actions[1..])
  }

  /** No index is started again while it is open. */
  ghost predicate NeverRestarts(actions: seq<ToolAction>) {
    forall k :: 0 <= k < |actions| && actions[k].Start? ==> !Restarted(actions[k + 1..], actions[k].index)
  }

  lemma {:induction false} NeverRestartsUnfold(actions: seq<ToolAction>, rest: seq<ToolAction>)
    requires actions != [] && rest == actions[1..]
    ensures NeverRestarts(actions) <==>
            NeverRestarts(rest) && (actions[0].Start? ==> !Restarted(rest, actions[0].index))
  {
    assert forall k :: 0 <= k < |rest| ==> rest[k] == actions[k + 1] && rest[k + 1..] == actions[k + 2..];
    if NeverRestarts(actions) {
      forall k | 0 <= k < |rest| && rest[k].Start? ensures !Restarted(rest[k + 1..], rest[k].index) {
        assert actions[k + 1] == rest[k];
      }
    } else {
      var k :| 0 <= k < |actions| && actions[k].Start? && Restarted(actions[k + 1..], actions[k].index);
      assert k > 0 ==> rest[k - 1] == actions[k] && rest[k..] == actions[k + 1..];
    }
  }

  lemma {:induction false} CallsDueCount(parse: JsonParser, actions: seq<ToolAction>)
    ensures |CallsDue(parse, actions)| <= StartCount(actions)
    ensures |CallsDue(parse, actions)| == StartCount(actions) <==> NeverRestarts(actions)
  {
    if actions != [] {
      CallsDueCount(parse, actions[1..]);
      NeverRestartsUnfold(actions, actions[1..]);
    }
  }

  /** As many calls as tool blocks started, exactly when none is started again while open. */
  lemma {:induction false} OneCallPerBlock(parse: JsonParser, frames: seq<Frame>)
    requires NullPayload !in frames
    ensures |CallsIn(Decode(parse, frames, false).events)| == StartCount(Actions(frames)) <==>
            NeverRestarts(Actions(frames))
  {
    ToolBlockConservation(parse, frames);
    CallsDueCount(parse, Actions(frames));
    assert |multiset(CallsIn(Decode(parse, frames, false).events))| == |CallsIn(Decode(parse, frames, false).events)|;
  }

  // ---- Blocks do not interfere ----

  predicate Independent(a: ToolAction, b: ToolAction) {
    a.Nothing? || b.Nothing? || a.index != b.index
  }

  lemma {:induction false} SwapText(
      before: seq<ToolAction>, a: ToolAction, b: ToolAction, after: seq<ToolAction>, i: int)
    requires Independent(a, b)
    ensures TextUntilClose(before + [a, b] + after, i) == TextUntilClose(before + [b, a] + after, i)
    ensures Restarted(before + [a, b] + after, i) <==> Restarted(before + [b, a] + after, i)
  {
    var p, q := before + [a, b] + after, before + [b, a] + after;
    if before == [] {
      assert p[1..] == [b] + after && q[1..] == [a] + after;
      assert p[1..][1..] == after && q[1..][1..] == after;
    } else {
      SwapText(before[1..], a, b, after, i);
      assert p[1..] == before[1..] + [a, b] + after && q[1..] == before[1..] + [b, a] + after;
    }
  }

  /** What is due from a start does not depend on an independent action right after it. */
  lemma {:induction false} StartDueSkips(parse: JsonParser, a: ToolAction, b: ToolAction, after: seq<ToolAction>)
    requires Independent(a, b)
    ensures StartDue(parse, [a, b] + after) == StartDue(parse, [a] + after)
    ensures CallsDue(parse, [a, b] + after) ==
            StartDue(parse, [a] + after) + StartDue(parse, [b] + after) + CallsDue(parse, after)
  {
    assert ([a, b] + after)[1..] == [b] + after;
    assert ([a] + after)[1..] == after && ([b] + after)[1..] == after;
  }

  lemma {:induction false} SwapFirst(parse: JsonParser, a: ToolAction, b: ToolAction, after: seq<ToolAction>)
    requires Independent(a, b)
    ensures CallsDue(parse, [a, b] + after) == CallsDue(parse, [b, a] + after)
  {
    StartDueSkips(parse, a, b, after);
    StartDueSkips(parse, b, a, after);
  }

  lemma {:induction false} SwapDue(
      parse: JsonParser, before: seq<ToolAction>, a: ToolAction, b: ToolAction, after: seq<ToolAction>)
    requires Independent(a, b)
    ensures CallsDue(parse, before + [a, b] + after) == CallsDue(parse, before + [b, a] + after)
  {
    var p, q := before + [a, b] + after, before + [b, a] + after;
    if before == [] {
      SwapFirst(parse, a, b, after);
      assert p == [a, b] + after && q == [b, a] + after;
    } else {
      var p', q' := before[1..] + [a, b] + after, before[1..] + [b, a] + after;
      assert p == [before[0]] + p' && q == [before[0]] + q';
      SwapDue(parse, before[1..], a, b, after);
      if before[0].Start? {
        SwapText(before[1..], a, b, after, before[0].index);
      }
      SameDue(parse, before[0], p', q');
    }
  }

  lemma {:induction false} SameDue(parse: JsonParser, x: ToolAction, p: seq<ToolAction>, q: seq<ToolAction>)
    requires CallsDue(parse, p) == CallsDue(parse, q)
    requires x.Start? ==>
      TextUntilClose(p, x.index) == TextUntilClose(q, x.index) && Restarted(p, x.index) == Restarted(q, x.index)
    ensures CallsDue(parse, [x] + p) == CallsDue(parse, [x] + q)
  {
    assert ([x] + p)[1..] == p && ([x] + q)[1..] == q;
  }

  lemma {:induction false} ActionsAround(before: seq<Frame>, f: Frame, g: Frame, after: seq<Frame>)
    ensures Actions(before + [f, g] + after) == Actions(before) + [ActionOf(f), ActionOf(g)] + Actions(after)
  {}

  /** Swapping adjacent frames of different blocks does not change which tool calls are made. */
  lemma {:induction false} SwappingBlocksKeepsCalls(
      parse: JsonParser, before: seq<Frame>, f: Frame, g: Frame, after: seq<Frame>)
    requires NullPayload !in before + [f, g] + after
    requires Independent(ActionOf(f), ActionOf(g))
    ensures multiset(CallsIn(Decode(parse, before + [f, g] + after, false).events)) ==
            multiset(CallsIn(Decode(parse, before + [g, f] + after, false).events))
  {
    var frames, swapped := before + [f, g] + after, before + [g, f] + after;
    assert NullPayload !in swapped by {
      assert NullPayload in swapped ==> NullPayload in frames;
    }
    ToolBlockConservation(parse, frames);
    ToolBlockConservation(parse, swapped);
    ActionsAround(before, f, g, after);
    ActionsAround(before, g, f, after);
    SwapDue(parse, Actions(before), ActionOf(f), ActionOf(g), Actions(after));
  }

  // ---- The shape the fallback loop relies on ----

  lemma {:induction false} EventsHaveNoDone(parse: JsonParser, open: seq<ToolBlock>, frames: seq<Frame>)
    ensures NoDone(EventsFrom(parse, open, frames))
    decreases |frames|
  {
    if frames != [] && !frames[0].NullPayload? {
      EventsHaveNoDone(parse, Act(open, ActionOf(frames[0])), frames[1..]);
    }
  }

  /** `done` is the decoder's final act: emitted once, last, exactly when it does not throw. */
  lemma {:induction false} DecodeWellShaped(parse: JsonParser, frames: seq<Frame>, broken: bool)
    ensures WellShaped(Decode(parse, frames, broken))
  {
    EventsHaveNoDone(parse, [], frames);
    var run := Decode(parse, frames, broken);
    if !run.failed {
      assert run.events[..|run.events| - 1] ==
             EventsFrom(parse, [], frames) + CallEvents(Drained(parse, OpenAfter([], frames)));
    }
  }
}
