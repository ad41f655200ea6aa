/**
 * The OpenAI dialect (service/src/providers/openai-compatible.ts): the streaming decoder, the
 * non-streaming normalizer, and their agreement on every way of cutting a response into chunks.
 */
module OpenAiStream {
  import opened Json
  import opened RuntimeTypes
  import opened Sequences
  import opened Wrappers

  /** JSON.parse, which is not modelled: None is a syntax error. */
  type JsonParser = string -> Option<Json>

  datatype UsageFrame =
    UsageFrame(promptTokens: Option<real>, completionTokens: Option<real>, totalTokens: Option<real>)

  datatype ToolFragment =
    ToolFragment(index: Option<int>, id: Option<string>, name: Option<string>, arguments: Option<string>)

  datatype Delta = Delta(content: Option<string>, toolCalls: seq<ToolFragment>)

  datatype ChunkChoice = ChunkChoice(delta: Option<Delta>, finishReason: Option<string>)

  datatype Chunk = Chunk(usage: Option<UsageFrame>, choices: seq<ChunkChoice>)

  /** One framed message, with its payload decoded. */
  datatype Frame =
    | Blank
    | Sentinel
    | Malformed(payload: string)
    | NullPayload
    | Payload(chunk: Chunk)

  function UsageOf(u: UsageFrame): TokenUsage {
    var prompt, completion := u.promptTokens.GetOr(0.0), u.completionTokens.GetOr(0.0);
    TokenUsage(prompt, completion, u.totalTokens.GetOr(prompt + completion))
  }

  function MapFinishReason(value: Option<string>): Option<FinishReason> {
    match value
    case Some("stop") => Some(Stop)
    case Some("length") => Some(Length)
    case Some("content_filter") => Some(ContentFilter)
    case Some("tool_calls") => Some(ToolCalls)
    case Some("function_call") => Some(ToolCalls)
    case _ => None
  }

  function ParseArgs(parse: JsonParser, raw: string): Json {
    if raw == "" then Object(map[])
    else
      var v := parse(raw);
      if v.Some? && IsObjectLike(v.value) then v.value else Object(map[])
  }

  // ---- What a list of frames says, field by field ----

  predicate EndsReading(f: Frame) {
    f.Sentinel? || f.NullPayload?
  }

  /** How many frames are read before the sentinel, a null payload, or the end. */
  function ReadLength(frames: seq<Frame>): (n: nat)
    ensures n <= |frames|
    ensures forall i :: 0 <= i < n ==> !EndsReading(frames[i])
    ensures n < |frames| ==> EndsReading(frames[n])
  {
    if frames == [] || EndsReading(frames[0]) then 0 else 1 + ReadLength(frames[1..])
  }

  function Live(frames: seq<Frame>): seq<Frame> {
    frames[..ReadLength(frames)]
  }

  /** Reading a field of a null payload throws; so does a transport that breaks before the sentinel. */
  predicate Fails(frames: seq<Frame>, broken: bool) {
    var n := ReadLength(frames);
    if n < |frames| then frames[n].NullPayload? else broken
  }

  function ChoiceOf(f: Frame): Option<ChunkChoice> {
    if f.Payload? && f.chunk.choices != [] then Some(f.chunk.choices[0]) else None
  }

  function DeltaOf(f: Frame): Option<Delta> {
    var c := ChoiceOf(f);
    if c.Some? then c.value.delta else None
  }

  function ContentOf(f: Frame): string {
    var d := DeltaOf(f);
    if d.Some? then d.value.content.GetOr("") else ""
  }

  function FragmentsOf(f: Frame): seq<ToolFragment> {
    var d := DeltaOf(f);
    if d.Some? then d.value.toolCalls else []
  }

  /** The events a frame yields at once. */
  function ImmediateEvents(f: Frame): seq<StreamEvent> {
    if f.Malformed? then [Error("PARSE_FAILED", "Invalid SSE chunk: " + f.payload)]
    else if ContentOf(f) != "" then [Text(ContentOf(f))]
    else []
  }

  function ReportedUsage(f: Frame): Option<UsageFrame> {
    if f.Payload? then f.chunk.usage else None
  }

  /** A non-empty finish reason of the frame's choice. */
  function RawFinish(f: Frame): Option<string> {
    var c := ChoiceOf(f);
    if c.Some? && c.value.finishReason.Some? && c.value.finishReason.value != "" then c.value.finishReason else None
  }

  function MappedFinish(f: Frame): Option<FinishReason> {
    MapFinishReason(RawFinish(f))
  }

  function Usage(live: seq<Frame>): Option<TokenUsage> {
    var u := LastSome(ReportedUsage, live);
    if u.Some? then Some(UsageOf(u.value)) else None
  }

  // ---- Tool calls, as fragments of several calls interleaved ----

  function IndexOf(p: ToolFragment): int {
    p.index.GetOr(0)
  }

  function NonEmpty(s: Option<string>): Option<string> {
    if s.Some? && s.value != "" then s else None
  }

  function IdAt(i: int): ToolFragment -> Option<string> {
    p => if IndexOf(p) == i then NonEmpty(p.id) else None
  }

  function NameAt(i: int): ToolFragment -> Option<string> {
    p => if IndexOf(p) == i then NonEmpty(p.name) else None
  }

  function ArgumentsAt(i: int): ToolFragment -> string {
    p => if IndexOf(p) == i then p.arguments.GetOr("") else ""
  }

  datatype ToolBuffer = ToolBuffer(id: string, name: string, args: string)

  /** The last non-empty id and name at an index, and its argument text in order. */
  function BufferAt(fragments: seq<ToolFragment>, i: int): ToolBuffer {
    ToolBuffer(LastSome(IdAt(i), fragments).GetOr(""),
               LastSome(NameAt(i), fragments).GetOr(""),
               FlatMap(ArgumentsAt(i), fragments))
  }

  /** The indices in the order in which they first appear: the iteration order of the buffer map. */
  function FirstSeen(fragments: seq<ToolFragment>): seq<int> {
    if fragments == [] then []
    else
      var seen, i := FirstSeen(fragments[..|fragments| - 1]), IndexOf(fragments[|fragments| - 1]);
      if i in seen then seen else seen + [i]
  }

  function CallAt(parse: JsonParser, b: ToolBuffer): ToolCall {
    ToolCall(b.id, b.name, ParseArgs(parse, b.args))
  }

  function ToolEvents(parse: JsonParser, fragments: seq<ToolFragment>): seq<StreamEvent> {
    var order := FirstSeen(fragments);
    seq(|order|, k requires 0 <= k < |order| => ToolCallEvent(CallAt(parse, BufferAt(fragments, order[k]))))
  }

  /** The whole run of the decoder over frames, with `broken` telling how the transport ended. */
  function Decode(parse: JsonParser, frames: seq<Frame>, broken: bool): StreamRun {
    var live := Live(frames);
    if Fails(frames, broken) then StreamRun(FlatMap(ImmediateEvents, live), true)
    else
      StreamRun(FlatMap(ImmediateEvents, live)
                + ToolEvents(parse, FlatMap(FragmentsOf, live))
                + [Done(Usage(live), LastSome(MappedFinish, live))], false)
  }

  // ---- The decoder itself ----

  lemma {:induction false} LiveStep(frames: seq<Frame>, n: nat)
    requires n < |frames| && n <= ReadLength(frames)
    ensures if EndsReading(frames[n]) then n == ReadLength(frames) else n < ReadLength(frames)
    ensures frames[..n + 1] == frames[..n] + [frames[n]]
  {}

  lemma {:induction false} BufferStep(fragments: seq<ToolFragment>, p: ToolFragment, i: int)
    ensures var before, after := BufferAt(fragments, i), BufferAt(fragments + [p], i);
            if IndexOf(p) == i then
              after == ToolBuffer(NonEmpty(p.id).GetOr(before.id), NonEmpty(p.name).GetOr(before.name),
                                  before.args + p.arguments.GetOr(""))
            else after == before
  {
    LastSomeSnoc(IdAt(i), fragments, p);
    LastSomeSnoc(NameAt(i), fragments, p);
    FlatMapSnoc(ArgumentsAt(i), fragments, p);
  }

  lemma {:induction false} FirstSeenStep(fragments: seq<ToolFragment>, p: ToolFragment)
    ensures FirstSeen(fragments + [p]) ==
            if IndexOf(p) in FirstSeen(fragments) then FirstSeen(fragments) else FirstSeen(fragments) + [IndexOf(p)]
  {
    assert (fragments + [p])[..|fragments|] == fragments;
  }

  /** An index that no fragment carries has an empty buffer. */
  lemma {:induction false} UnseenBuffer(fragments: seq<ToolFragment>, i: int)
    requires i !in FirstSeen(fragments)
    ensures BufferAt(fragments, i) == ToolBuffer("", "", "")
  {
    if fragments != [] {
      var init, p := fragments[..|fragments| - 1], fragments[|fragments| - 1];
      assert fragments == init + [p];
      FirstSeenStep(init, p);
      UnseenBuffer(init, i);
      BufferStep(init, p, i);
    }
  }

  ghost predicate BuffersHold(order: seq<int>, buffers: map<int, ToolBuffer>, fragments: seq<ToolFragment>) {
    && order == FirstSeen(fragments)
    && buffers.Keys == (set i | i in order)
    && forall i :: i in buffers ==> buffers[i] == BufferAt(fragments, i)
  }

  method AbsorbFragment(order: seq<int>, buffers: map<int, ToolBuffer>, p: ToolFragment, ghost seen: seq<ToolFragment>)
    returns (order': seq<int>, buffers': map<int, ToolBuffer>)
    requires BuffersHold(order, buffers, seen)
    ensures BuffersHold(order', buffers', seen + [p])
  {
    var idx := IndexOf(p);
    var buf := if idx in buffers then buffers[idx] else ToolBuffer("", "", "");
    if p.id.Some? && p.id.value != "" {
      buf := buf.(id := p.id.value);
    }
    if p.name.Some? && p.name.value != "" {
      buf := buf.(name := p.name.value);
    }
    if p.arguments.Some? {
      buf := buf.(args := buf.args + p.arguments.value);
    }
    order' := if idx in buffers then order else order + [idx];
    buffers' := buffers[idx := buf];

    FirstSeenStep(seen, p);
    forall i | i in buffers' ensures buffers'[i] == BufferAt(seen + [p], i) {
      BufferStep(seen, p, i);
      if i !in buffers {
        UnseenBuffer(seen, i);
      }
    }
  }

  method AbsorbFragments(order: seq<int>, buffers: map<int, ToolBuffer>, fragments: seq<ToolFragment>,
                         ghost seen: seq<ToolFragment>)
    returns (order': seq<int>, buffers': map<int, ToolBuffer>)
    requires BuffersHold(order, buffers, seen)
    ensures BuffersHold(order', buffers', seen + fragments)
  {
    order', buffers' := order, buffers;
    assert seen + fragments[..0] == seen;
    for j := 0 to |fragments|
      invariant BuffersHold(order', buffers', seen + fragments[..j])
    {
      assert seen + fragments[..j] + [fragments[j]] == seen + fragments[..j + 1];
      order', buffers' := AbsorbFragment(order', buffers', fragments[j], seen + fragments[..j]);
    }
    assert fragments[..|fragments|] == fragments;
  }

  method Flush(parse: JsonParser, order: seq<int>, buffers: map<int, ToolBuffer>, ghost fragments: seq<ToolFragment>,
               usage: Option<TokenUsage>, finishReason: Option<FinishReason>)
    returns (events: seq<StreamEvent>)
    requires BuffersHold(order, buffers, fragments)
    ensures events == ToolEvents(parse, fragments) + [Done(usage, finishReason)]
  {
    events := [];
    for k := 0 to |order|
      invariant events == ToolEvents(parse, fragments)[..k]
    {
      events := events + [ToolCallEvent(CallAt(parse, buffers[order[k]]))];
    }
    events := events + [Done(usage, finishReason)];
  }

  method ParseOpenAiCompatibleStream(parse: JsonParser, frames: seq<Frame>, broken: bool)
    returns (events: seq<StreamEvent>, failed: bool)
    ensures StreamRun(events, failed) == Decode(parse, frames, broken)
  {
    events := [];
    var order: seq<int>, buffers: map<int, ToolBuffer> := [], map[];
    var usage: Option<TokenUsage>, finishReason: Option<FinishReason> := None, None;

    for n := 0 to |frames|
      invariant n <= ReadLength(frames)
      invariant events == FlatMap(ImmediateEvents, frames[..n])
      invariant BuffersHold(order, buffers, FlatMap(FragmentsOf, frames[..n]))
      invariant usage == Usage(frames[..n])
      invariant finishReason == LastSome(MappedFinish, frames[..n])
    {
      var frame := frames[n];
      ghost var fragments := FlatMap(FragmentsOf, frames[..n]);
      LiveStep(frames, n);
      if frame.Sentinel? {
        var tail := Flush(parse, order, buffers, fragments, usage, finishReason);
        return events + tail, false;
      }
      if frame.NullPayload? {
        return events, true;
      }
      FlatMapSnoc(ImmediateEvents, frames[..n], frame);
      FlatMapSnoc(FragmentsOf, frames[..n], frame);
      LastSomeSnoc(ReportedUsage, frames[..n], frame);
      LastSomeSnoc(MappedFinish, frames[..n], frame);
      assert FragmentsOf(frame) == [] ==> FlatMap(FragmentsOf, frames[..n + 1]) == fragments;

      if frame.Malformed? {
        events := events + [Error("PARSE_FAILED", "Invalid SSE chunk: " + frame.payload)];
      } else if frame.Payload? {
        if frame.chunk.usage.Some? {
          usage := Some(UsageOf(frame.chunk.usage.value));
        }
        if frame.chunk.choices != [] {
          var choice := frame.chunk.choices[0];
          if choice.delta.Some? {
            var delta := choice.delta.value;
            if delta.content.Some? && delta.content.value != "" {
              events := events + [Text(delta.content.value)];
            }
            order, buffers := AbsorbFragments(order, buffers, delta.toolCalls, fragments);
          }
          if choice.finishReason.Some? && choice.finishReason.value != "" {
            finishReason := MapFinishReason(choice.finishReason).OrElse(finishReason);
          }
        }
      }
    }

    assert frames[..|frames|] == frames && Live(frames) == frames;
    if broken {
      return events, true;
    }
    var tail := Flush(parse, order, buffers, FlatMap(FragmentsOf, frames), usage, finishReason);
    return events + tail, false;
  }

  /** `done` is the decoder's final act: emitted once, last, exactly when it does not throw. */
  lemma {:induction false} DecodeWellShaped(parse: JsonParser, frames: seq<Frame>, broken: bool)
    ensures WellShaped(Decode(parse, frames, broken))
    ensures Decode(parse, frames, broken).failed == Fails(frames, broken)
  {
    var live := Live(frames);
    forall e | e in FlatMap(ImmediateEvents, live) ensures !e.Done? {
      FlatMapMember(ImmediateEvents, live, e);
    }
    var run := Decode(parse, frames, broken);
    if !run.failed {
      assert run.events[..|run.events| - 1] ==
             FlatMap(ImmediateEvents, live) + ToolEvents(parse, FlatMap(FragmentsOf, live));
    }
  }
}
