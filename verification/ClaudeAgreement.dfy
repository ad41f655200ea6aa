/**
 * The non-streaming normalizer of the Anthropic dialect, and the law that ties it to the stream: however the
 * content blocks of a response are cut into events, the decoder gives back what the normalizer gives.
 */
module ClaudeAgreement {
  import opened ClaudeStream
  import opened Json
  import opened RuntimeTypes
  import opened Sequences
  import opened Wrappers
  import OpenAi = OpenAiAgreement
  import Trimming = Text

  /** A field of the wrong type, or null, counts as absent. */
  datatype Block =
    | TextBlock(text: Option<string>)
    | ToolUse(id: Option<string>, name: Option<string>, input: Option<Json>)
    | OtherBlock

  datatype ClaudeResponse = ClaudeResponse(
    content: seq<Block>, inputTokens: Option<real>, outputTokens: Option<real>, stopReason: Option<string>,
      errorMessage: Option<string>)

  function BlockText(b: Block): string {
    if b.TextBlock? then b.text.GetOr("") else ""
  }

  predicate IsNamed(b: Block) {
    b.ToolUse? && b.id.Some? && b.name.Some?
  }

  /** The call a tool block stands for. */
  function WholeCall(b: Block): seq<ToolCall> {
    if b.ToolUse? then [ToolCall(b.id.GetOr(""), b.name.GetOr(""), b.input.GetOr(Object(map[])))] else []
  }

  function NamedCall(b: Block): seq<ToolCall> {
    if IsNamed(b) then WholeCall(b) else []
  }

  function NormalizeResponse(r: ClaudeResponse): Result<ProviderChatResponse, string> {
    var content, calls := FlatMap(BlockText, r.content), FlatMap(NamedCall, r.content);
    if content == "" && calls == [] then Failure(r.errorMessage.GetOr("empty model response"))
    else
      var prompt, completion := r.inputTokens.GetOr(0.0), r.outputTokens.GetOr(0.0);
      Success(ProviderChatResponse(content, calls, MapStopReason(r.stopReason),
        TokenUsage(prompt, completion, prompt + completion)))
  }

  // ---- What the upstream's words mean ----

  /** The input a text stands for: the object or array it is, and the empty object for any other text. */
  predicate ReadsAs(parse: JsonParser, text: string, input: Json) {
    if Trimming.Trim(text) != "" && parse(text).Some? && (parse(text).value.Object? || parse(text).value.Array?)
    then input == parse(text).value
    else input == Object(map[])
  }

  predicate FinishSays(finish: Option<FinishReason>, word: Option<string>) {
    && (finish == Some(Stop) <==> word == Some("end_turn") || word == Some("stop_sequence"))
    && (finish == Some(ToolCalls) <==> word == Some("tool_use"))
    && (finish == Some(Length) <==> word == Some("max_tokens"))
    && finish != Some(ContentFilter)
  }

  lemma {:induction false} WordsAreRead(parse: JsonParser, text: string, input: Json, word: Option<string>)
    ensures ReadsAs(parse, text, input) <==> input == ParseToolInput(parse, text)
    ensures FinishSays(MapStopReason(word), word)
  {}

  /** The text and the call of one block, from its own fields. */
  lemma {:induction false} BlocksSay(b: Block)
    ensures match b
            case TextBlock(text) =>
              BlockText(b) == (if text.Some? then text.value else "") && WholeCall(b) == [] && NamedCall(b) == []
            case ToolUse(id, name, input) =>
              && BlockText(b) == "" && |WholeCall(b)| == 1
              && WholeCall(b)[0].id == (if id.Some? then id.value else "")
              && WholeCall(b)[0].name == (if name.Some? then name.value else "")
              && WholeCall(b)[0].arguments == (if input.Some? then input.value else Object(map[]))
              && NamedCall(b) == if id.Some? && name.Some? then WholeCall(b) else []
            case OtherBlock => BlockText(b) == "" && WholeCall(b) == [] && NamedCall(b) == []
  {}

  /** What the normalizer makes of a response beside its text and calls. */
  lemma {:induction false} NormalizedSaysTheResponse(r: ClaudeResponse)
    ensures var n := NormalizeResponse(r);
            && (n.Failure? <==> FlatMap(BlockText, r.content) == "" && FlatMap(NamedCall, r.content) == [])
            && (n.Success? ==>
                  && n.value.content == FlatMap(BlockText, r.content)
                  && n.value.toolCalls == FlatMap(NamedCall, r.content)
                  && n.value.usage.promptTokens == (if r.inputTokens.Some? then r.inputTokens.value else 0.0)
                  && n.value.usage.completionTokens == (if r.outputTokens.Some? then r.outputTokens.value else 0.0)
                  && n.value.usage.totalTokens == n.value.usage.promptTokens + n.value.usage.completionTokens
                  && FinishSays(n.value.finishReason, r.stopReason))
  {
    WordsAreRead(s => None, "", Null, r.stopReason);
  }

  // ---- Cutting a response into events ----

  function FrameText(f: Frame): string {
    match f
    case Payload(ContentBlockDelta(_, TextDelta(text))) => text
    case _ => ""
  }

  /** No tool block starts here. */
  predicate Startless(frames: seq<Frame>) {
    forall f :: f in frames ==> !ActionOf(f).Start? && !f.NullPayload?
  }

  /** The frames of one content block, among any others that start no tool block. */
  ghost predicate CutsBlock(parse: JsonParser, frames: seq<Frame>, b: Block) {
    && FlatMap(FrameText, frames) == BlockText(b)
    && if b.ToolUse? then exists k :: StartsAt(parse, frames, k, b) else Startless(frames)
  }

  /** Frame k starts the tool block, and what follows feeds it its input and closes it. */
  ghost predicate StartsAt(parse: JsonParser, frames: seq<Frame>, k: int, b: Block)
    requires b.ToolUse?
  {
    && 0 <= k < |frames| && Startless(frames[..k]) && Startless(frames[k + 1..]) && !frames[k].NullPayload?
    && ActionOf(frames[k]).Start? && ActionOf(frames[k]).id == b.id.GetOr("")
    && ActionOf(frames[k]).name == b.name.GetOr("")
    && var actions := Actions(frames[k + 1..]);
    && Close(ActionOf(frames[k]).index) in actions
    && ReadsAs(parse, TextUntilClose(actions, ActionOf(frames[k]).index), b.input.GetOr(Object(map[])))
  }

  function Flattened(parts: seq<seq<Frame>>): seq<Frame> {
    if parts == [] then [] else Flattened(parts[..|parts| - 1]) + parts[|parts| - 1]
  }

  /** The frames are the content of r, block by block, then a tail, with usage and stop reason said somewhere. */
  ghost predicate CutInto(
      parse: JsonParser, frames: seq<Frame>, parts: seq<seq<Frame>>, tail: seq<Frame>, r: ClaudeResponse)
  {
    && frames == Flattened(parts) + tail
    && |parts| == |r.content| && (forall k :: 0 <= k < |parts| ==> CutsBlock(parse, parts[k], r.content[k]))
    && Startless(tail) && FlatMap(FrameText, tail) == ""
    && LastSome(InputReport, frames).GetOr(0.0) == r.inputTokens.GetOr(0.0)
    && LastSome(OutputReport, frames).GetOr(0.0) == r.outputTokens.GetOr(0.0)
    && LastSome(MappedStop, frames) == MapStopReason(r.stopReason)
  }

  // ---- What the decoder makes of a cut ----

  lemma {:induction false} EventsAppend(parse: JsonParser, open: seq<ToolBlock>, a: seq<Frame>, b: seq<Frame>)
    requires NullPayload !in a
    ensures EventsFrom(parse, open, a + b) == EventsFrom(parse, open, a) + EventsFrom(parse, OpenAfter(open, a), b)
    ensures OpenAfter(open, a + b) == OpenAfter(OpenAfter(open, a), b)
    decreases |a|
  {
    if a == [] {
      assert a + b == b;
    } else {
      var open', all := Act(open, ActionOf(a[0])), a + b;
      assert all[1..] == a[1..] + b && all[0] == a[0];
      EventsUnfold(parse, open, a);
      EventsUnfold(parse, open, all);
      EventsAppend(parse, open', a[1..], b);
      Regroup(FrameEvents(parse, open, a[0]), EventsFrom(parse, open', a[1..]),
        EventsFrom(parse, OpenAfter(open, a), b));
    }
  }

  lemma {:induction false} TextOfFew(events: seq<StreamEvent>)
    requires |events| <= 1
    ensures TextIn(events) == if events == [] then "" else TextOf(events[0])
  {
    if events != [] {
      assert events == [] + [events[0]];
      FlatMapSnoc(TextOf, [], events[0]);
    }
  }

  /** What a frame says directly is its text, or nothing a reader counts as text. */
  lemma {:induction false} DirectText(f: Frame, direct: seq<StreamEvent>)
    requires direct == DirectEvents(f)
    ensures |direct| <= 1 && FrameText(f) == if direct == [] then "" else TextOf(direct[0])
  {
  }

  lemma {:induction false} TextOfFrame(parse: JsonParser, open: seq<ToolBlock>, f: Frame)
    ensures TextIn(FrameEvents(parse, open, f)) == FrameText(f)
  {
    var direct, calls := DirectEvents(f), CallEvents(CallOnClose(parse, open, ActionOf(f)));
    DirectText(f, direct);
    TextOfFew(direct);
    FlatMapAppend(TextOf, direct, calls);
    FlatMapNothing(TextOf, calls);
  }

  lemma {:induction false} TextOfRun(parse: JsonParser, open: seq<ToolBlock>, frames: seq<Frame>)
    requires NullPayload !in frames
    ensures TextIn(EventsFrom(parse, open, frames)) == FlatMap(FrameText, frames)
    decreases |frames|
  {
    if frames != [] {
      var f, rest := frames[0], frames[1..];
      var open' := Act(open, ActionOf(f));
      EventsUnfold(parse, open, frames);
      TextOfRun(parse, open', rest);
      TextOfFirst(parse, open, f, EventsFrom(parse, open', rest));
      FlatMapCons(FrameText, f, rest);
      assert frames == [f] + rest;
    }
  }

  lemma {:induction false} TextOfFirst(parse: JsonParser, open: seq<ToolBlock>, f: Frame, later: seq<StreamEvent>)
    ensures TextIn(FrameEvents(parse, open, f) + later) == FrameText(f) + TextIn(later)
  {
    TextOfFrame(parse, open, f);
    FlatMapAppend(TextOf, FrameEvents(parse, open, f), later);
  }

  /** Without a start nothing opens, and whatever is open at index i is gone once it is closed. */
  lemma {:induction false} StartlessCloses(open: seq<ToolBlock>, frames: seq<Frame>)
    requires Startless(frames) && |open| <= 1
    requires open != [] ==> Close(open[0].index) in Actions(frames)
    ensures OpenAfter(open, frames) == []
    decreases |frames|
  {
    if frames != [] {
      var a, rest := ActionOf(frames[0]), frames[1..];
      assert Actions(frames) == [a] + Actions(rest);
      assert frames[0] in frames;
      StartlessCloses(Act(open, a), rest);
    }
  }

  lemma {:induction false} StartlessDue(parse: JsonParser, frames: seq<Frame>)
    requires Startless(frames)
    ensures CallsDue(parse, Actions(frames)) == multiset{}
    decreases |frames|
  {
    if frames != [] {
      assert Actions(frames)[1..] == Actions(frames[1..]) && frames[0] in frames;
      StartlessDue(parse, frames[1..]);
    }
  }

  lemma {:induction false} NeverRestarted(frames: seq<Frame>, i: int)
    requires Startless(frames)
    ensures !Restarted(Actions(frames), i)
    decreases |frames|
  {
    if frames != [] {
      assert Actions(frames)[1..] == Actions(frames[1..]) && frames[0] in frames;
      NeverRestarted(frames[1..], i);
    }
  }

  lemma {:induction false} OneCallSequence(calls: seq<ToolCall>, due: seq<ToolCall>)
    requires multiset(calls) == multiset(due) && |due| <= 1
    ensures calls == due
  {
    assert |calls| == |multiset(calls)| == |due|;
    if |due| == 1 {
      assert due[0] in multiset(calls);
    }
  }

  lemma {:induction false} NothingElse(
      calls: seq<ToolCall>, drained: seq<ToolCall>, open: multiset<ToolCall>, due: multiset<ToolCall>)
    requires multiset(calls) + multiset(drained) == open + due && drained == [] && open == multiset{}
    ensures multiset(calls) == due
  {
    assert multiset(calls) + multiset(drained) == multiset(calls);
    assert open + due == due;
  }

  /** A run that leaves nothing open makes what was due. */
  lemma {:induction false} ClosedRunMakes(parse: JsonParser, frames: seq<Frame>, due: seq<ToolCall>)
    requires NullPayload !in frames && OpenAfter([], frames) == [] && |due| <= 1
    requires CallsDue(parse, Actions(frames)) == multiset(due)
    ensures CallsIn(EventsFrom(parse, [], frames)) == due
  {
    var calls, actions := CallsIn(EventsFrom(parse, [], frames)), Actions(frames);
    RunConserves(parse, [], frames);
    NothingElse(calls, Drained(parse, OpenAfter([], frames)), OpenCallsDue(parse, [], actions),
      CallsDue(parse, actions));
    OneCallSequence(calls, due);
  }

  /** Frames that start nothing make no call and leave nothing open. */
  lemma {:induction false} StartlessMakesNothing(parse: JsonParser, frames: seq<Frame>)
    requires Startless(frames)
    ensures OpenAfter([], frames) == [] && CallsIn(EventsFrom(parse, [], frames)) == []
  {
    StartlessCloses([], frames);
    StartlessDue(parse, frames);
    ClosedRunMakes(parse, frames, []);
  }

  lemma {:induction false} ToolDue(parse: JsonParser, a: ToolAction, rest: seq<Frame>)
    requires a.Start? && Startless(rest)
    ensures CallsDue(parse, [a] + Actions(rest)) ==
            multiset{ToolCall(a.id, a.name, ParseToolInput(parse, TextUntilClose(Actions(rest), a.index)))}
  {
    var actions := [a] + Actions(rest);
    assert actions[1..] == Actions(rest);
    NeverRestarted(rest, a.index);
    StartlessDue(parse, rest);
    var text := TextUntilClose(Actions(rest), a.index);
    assert "" + text == text;
    assert StartDue(parse, actions) == multiset{ToolCall(a.id, a.name, ParseToolInput(parse, text))};
    assert CallsDue(parse, actions) == StartDue(parse, actions) + CallsDue(parse, actions[1..]);
  }

  lemma {:induction false} ToolCloses(parse: JsonParser, start: Frame, rest: seq<Frame>)
    requires ActionOf(start).Start? && !start.NullPayload? && Startless(rest)
    requires Close(ActionOf(start).index) in Actions(rest)
    ensures NullPayload !in [start] + rest && OpenAfter([], [start] + rest) == []
  {
    var a, tool := ActionOf(start), [start] + rest;
    assert tool[0] == start && tool[1..] == rest;
    EventsUnfold(parse, [], tool);
    StartlessCloses(Act([], a), rest);
  }

  /** From its start on, a block that is closed makes its call. */
  lemma {:induction false} ToolMakesItsCall(
      parse: JsonParser, start: Frame, rest: seq<Frame>, tool: seq<Frame>, due: seq<ToolCall>)
    requires tool == [start] + rest
    requires ActionOf(start).Start? && !start.NullPayload? && Startless(rest)
    requires Close(ActionOf(start).index) in Actions(rest)
    requires var a := ActionOf(start);
             due == [ToolCall(a.id, a.name, ParseToolInput(parse, TextUntilClose(Actions(rest), a.index)))]
    ensures NullPayload !in tool && OpenAfter([], tool) == [] && CallsIn(EventsFrom(parse, [], tool)) == due
  {
    ToolCloses(parse, start, rest);
    ToolDue(parse, ActionOf(start), rest);
    assert Actions(tool) == [ActionOf(start)] + Actions(rest);
    ClosedRunMakes(parse, tool, due);
  }

  lemma {:induction false} MakeTogether(parse: JsonParser, a: seq<Frame>, b: seq<Frame>)
    requires NullPayload !in a && OpenAfter([], a) == []
    ensures OpenAfter([], a + b) == OpenAfter([], b)
    ensures CallsIn(EventsFrom(parse, [], a + b)) ==
            CallsIn(EventsFrom(parse, [], a)) + CallsIn(EventsFrom(parse, [], b))
  {
    EventsAppend(parse, [], a, b);
    FlatMapAppend(CallOf, EventsFrom(parse, [], a), EventsFrom(parse, [], b));
  }

  lemma {:induction false} ToolBlockMakesItsCall(
      parse: JsonParser, frames: seq<Frame>, b: Block, k: nat, lead: seq<Frame>, rest: seq<Frame>)
    requires b.ToolUse? && StartsAt(parse, frames, k, b) && lead == frames[..k] && rest == frames[k + 1..]
    ensures var all := lead + ([frames[k]] + rest);
            && NullPayload !in all && OpenAfter([], all) == []
            && CallsIn(EventsFrom(parse, [], all)) == WholeCall(b)
  {
    var tool := [frames[k]] + rest;
    ToolMakesItsCall(parse, frames[k], rest, tool, WholeCall(b));
    StartlessMakesNothing(parse, lead);
    MakeTogether(parse, lead, tool);
  }

  lemma {:induction false} AroundFrame(frames: seq<Frame>, k: nat)
    requires k < |frames|
    ensures frames == frames[..k] + ([frames[k]] + frames[k + 1..])
  {}

  /** The frames of a block make its call, and leave nothing open behind. */
  lemma {:induction false} BlockMakesItsCall(parse: JsonParser, frames: seq<Frame>, b: Block)
    requires CutsBlock(parse, frames, b)
    ensures NullPayload !in frames && OpenAfter([], frames) == []
    ensures CallsIn(EventsFrom(parse, [], frames)) == WholeCall(b)
  {
    if b.ToolUse? {
      var k :| StartsAt(parse, frames, k, b);
      AroundFrame(frames, k);
      ToolBlockMakesItsCall(parse, frames, b, k, frames[..k], frames[k + 1..]);
    } else {
      StartlessMakesNothing(parse, frames);
    }
  }

  /** All the blocks: the text, and one call for each tool block, in the order of the response. */
  lemma {:induction false} BlocksMakeTheirCalls(parse: JsonParser, parts: seq<seq<Frame>>, content: seq<Block>)
    requires |parts| == |content| && forall k :: 0 <= k < |parts| ==> CutsBlock(parse, parts[k], content[k])
    ensures var frames := Flattened(parts);
            && NullPayload !in frames && OpenAfter([], frames) == []
            && CallsIn(EventsFrom(parse, [], frames)) == FlatMap(WholeCall, content)
            && FlatMap(FrameText, frames) == FlatMap(BlockText, content)
  {
    if parts != [] {
      var init, last := parts[..|parts| - 1], parts[|parts| - 1];
      var b := content[|content| - 1];
      BlocksMakeTheirCalls(parse, init, content[..|content| - 1]);
      BlockMakesItsCall(parse, last, b);
      MakeTogether(parse, Flattened(init), last);
      FlatMapAppend(FrameText, Flattened(init), last);
    }
  }

  lemma {:induction false} FramesMakeTheirCalls(
      parse: JsonParser, frames: seq<Frame>, parts: seq<seq<Frame>>, tail: seq<Frame>, r: ClaudeResponse)
    requires CutInto(parse, frames, parts, tail, r)
    ensures NullPayload !in frames && OpenAfter([], frames) == []
    ensures var events := EventsFrom(parse, [], frames);
            TextIn(events) == FlatMap(BlockText, r.content) && CallsIn(events) == FlatMap(WholeCall, r.content)
  {
    var body := Flattened(parts);
    BlocksMakeTheirCalls(parse, parts, r.content);
    StartlessMakesNothing(parse, tail);
    MakeTogether(parse, body, tail);
    FlatMapAppend(FrameText, body, tail);
    TextOfRun(parse, [], frames);
  }

  /** The decoder's account of any cut: the text, every tool block's call, the stop reason, the usage. */
  lemma {:induction false} DecodeCut(
      parse: JsonParser, frames: seq<Frame>, parts: seq<seq<Frame>>, tail: seq<Frame>, r: ClaudeResponse)
    requires CutInto(parse, frames, parts, tail, r)
    ensures var events := Decode(parse, frames, false).events;
            && EndsInOneDone(events)
            && TextIn(events) == FlatMap(BlockText, r.content)
            && CallsIn(events) == FlatMap(WholeCall, r.content)
            && events[|events| - 1] == Done(Usage(frames), MapStopReason(r.stopReason))
  {
    FramesMakeTheirCalls(parse, frames, parts, tail, r);
    DecodeWellShaped(parse, frames, false);
    var events, done := EventsFrom(parse, [], frames), Done(Usage(frames), LastSome(MappedStop, frames));
    FlatMapSnoc(TextOf, events, done);
    FlatMapSnoc(CallOf, events, done);
    assert Decode(parse, frames, false).events == events + [done] by {
      assert CallEvents(Drained(parse, [])) == [];
      assert events + [] == events;
    }
  }

  lemma {:induction false} NamedCallsCount(content: seq<Block>)
    ensures |FlatMap(NamedCall, content)| <= |FlatMap(WholeCall, content)|
    ensures |FlatMap(NamedCall, content)| == |FlatMap(WholeCall, content)| <==>
            forall b :: b in content && b.ToolUse? ==> IsNamed(b)
    ensures (forall b :: b in content && b.ToolUse? ==> IsNamed(b)) ==>
            FlatMap(NamedCall, content) == FlatMap(WholeCall, content)
    ensures FlatMap(WholeCall, content) == [] <==> forall b :: b in content ==> !b.ToolUse?
  {
    if content != [] {
      var init, last := content[..|content| - 1], content[|content| - 1];
      NamedCallsCount(init);
      assert content == init + [last];
      assert forall b :: b in content <==> b in init || b == last;
    }
  }

  lemma {:induction false} InputImpliesOutput(frames: seq<Frame>)
    ensures LastSome(OutputReport, frames).None? ==> LastSome(InputReport, frames).None?
  {
    if frames != [] {
      InputImpliesOutput(frames[..|frames| - 1]);
    }
  }

  /**
   * Stream and non-stream agree on every cut of a response exactly when every tool block has an id and a name
   * (the normalizer skips the others, the decoder does not) and there is some text or tool block (else the
   * normalizer throws).
   */
  lemma {:induction false} StreamAgreesWithResponse(
      parse: JsonParser, frames: seq<Frame>, parts: seq<seq<Frame>>, tail: seq<Frame>, r: ClaudeResponse)
    requires CutInto(parse, frames, parts, tail, r)
    ensures OpenAi.Agrees(Decode(parse, frames, false).events, NormalizeResponse(r)) <==>
            (forall b :: b in r.content && b.ToolUse? ==> IsNamed(b))
            && (FlatMap(BlockText, r.content) != "" || exists b :: b in r.content && b.ToolUse?)
  {
    DecodeCut(parse, frames, parts, tail, r);
    NamedCallsCount(r.content);
    InputImpliesOutput(frames);
  }

  // ---- The plainest cut ----

  function Plain(write: Json -> string, i: int, b: Block): seq<Frame> {
    match b
    case TextBlock(text) => [Payload(ContentBlockDelta(Some(i), TextDelta(text.GetOr(""))))]
    case ToolUse(id, name, input) => PlainTool(i, id, name, write(input.GetOr(Object(map[]))))
    case OtherBlock => []
  }

  function PlainTool(i: int, id: Option<string>, name: Option<string>, input: string): seq<Frame> {
    [Payload(ContentBlockStart(Some(i), Some(ContentBlock("tool_use", id, name)))),
     Payload(ContentBlockDelta(Some(i), InputJsonDelta(Some(input)))),
     Payload(ContentBlockStop(Some(i)))]
  }

  function PlainParts(write: Json -> string, content: seq<Block>): seq<seq<Frame>> {
    seq(|content|, i requires 0 <= i < |content| => Plain(write, i, content[i]))
  }

  /** The message's counts and stop reason, as the protocol splits them. */
  function PlainTail(r: ClaudeResponse): seq<Frame> {
    [Payload(MessageStart(Some(StartUsage(r.inputTokens, None)))), Payload(MessageDelta(r.stopReason, r.outputTokens))]
  }

  lemma {:induction false} PlainToolStarts(parse: JsonParser, frames: seq<Frame>, i: int, b: Block, input: string)
    requires b.ToolUse? && frames == PlainTool(i, b.id, b.name, input)
    requires ReadsAs(parse, input, b.input.GetOr(Object(map[])))
    ensures StartsAt(parse, frames, 0, b)
  {
    var actions := Actions(frames[1..]);
    assert actions == [Feed(i, input), Close(i)];
    assert actions[1..] == [Close(i)];
    assert input + "" == input;
  }

  lemma {:induction false} PlainCutsBlock(parse: JsonParser, write: Json -> string, i: int, b: Block)
    requires b.ToolUse? ==> ReadsAs(parse, write(b.input.GetOr(Object(map[]))), b.input.GetOr(Object(map[])))
    ensures CutsBlock(parse, Plain(write, i, b), b)
  {
    var frames := Plain(write, i, b);
    if b.TextBlock? {
      FlatMapSnoc(FrameText, [], frames[0]);
      assert [] + [frames[0]] == frames;
    } else {
      FlatMapNothing(FrameText, frames);
      if b.ToolUse? {
        PlainToolStarts(parse, frames, i, b, write(b.input.GetOr(Object(map[]))));
      }
    }
  }

  predicate SaysNoStop(frames: seq<Frame>) {
    forall f :: f in frames ==> MappedStop(f).None?
  }

  lemma {:induction false} NoStopSaid(frames: seq<Frame>)
    requires SaysNoStop(frames)
    ensures LastSome(MappedStop, frames) == None
  {
    if frames != [] {
      NoStopSaid(frames[..|frames| - 1]);
    }
  }

  lemma {:induction false} FlattenedSaysNoStop(parts: seq<seq<Frame>>)
    requires forall k :: 0 <= k < |parts| ==> SaysNoStop(parts[k])
    ensures SaysNoStop(Flattened(parts))
  {
    if parts != [] {
      FlattenedSaysNoStop(parts[..|parts| - 1]);
    }
  }

  lemma {:induction false} TailSays(body: seq<Frame>, tail: seq<Frame>, r: ClaudeResponse)
    requires tail == PlainTail(r) && SaysNoStop(body)
    ensures LastSome(InputReport, body + tail) == Some(r.inputTokens.GetOr(0.0))
    ensures LastSome(OutputReport, body + tail) == Some(if r.outputTokens.Some? then r.outputTokens.value else 0.0)
    ensures LastSome(MappedStop, body + tail) == MapStopReason(r.stopReason)
  {
    var start, delta := tail[0], tail[1];
    assert body + tail == (body + [start]) + [delta];
    LastSomeSnoc(InputReport, body, start);
    LastSomeSnoc(InputReport, body + [start], delta);
    LastSomeSnoc(OutputReport, body, start);
    LastSomeSnoc(OutputReport, body + [start], delta);
    LastSomeSnoc(MappedStop, body + [start], delta);
    NoStopSaid(body + [start]);
  }

  /** A response sent block by block is a cut of itself when its inputs can be written, so the law is never vacuous. */
  lemma {:induction false} PlainCuts(
      parse: JsonParser, write: Json -> string, r: ClaudeResponse, parts: seq<seq<Frame>>, tail: seq<Frame>)
    requires forall b :: b in r.content && b.ToolUse? ==>
      ReadsAs(parse, write(b.input.GetOr(Object(map[]))), b.input.GetOr(Object(map[])))
    requires parts == PlainParts(write, r.content) && tail == PlainTail(r)
    ensures CutInto(parse, Flattened(parts) + tail, parts, tail, r)
  {
    forall i | 0 <= i < |parts| ensures CutsBlock(parse, parts[i], r.content[i]) && SaysNoStop(parts[i]) {
      PlainCutsBlock(parse, write, i, r.content[i]);
    }
    FlattenedSaysNoStop(parts);
    TailSays(Flattened(parts), tail, r);
    FlatMapNothing(FrameText, tail);
  }
}
