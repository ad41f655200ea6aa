/**
 * The non-streaming normalizer of the OpenAI dialect, and the law that ties it to the stream:
 * however a complete response is cut into chunks, the decoder gives back what the normalizer gives.
 */
module OpenAiAgreement {
  import opened Json
  import opened OpenAiStream
  import opened RuntimeTypes
  import opened Sequences
  import opened Wrappers

  datatype ResponseCall = ResponseCall(id: Option<string>, name: Option<string>, arguments: Option<string>)

  datatype Message = Message(content: Option<string>, toolCalls: seq<ResponseCall>)

  datatype ResponseChoice = ResponseChoice(message: Option<Message>, finishReason: Option<string>)

  datatype ChatResponse =
    ChatResponse(choices: seq<ResponseChoice>, usage: Option<UsageFrame>, errorMessage: Option<string>)

  function ResponseMessage(r: ChatResponse): Message {
    if r.choices != [] then r.choices[0].message.GetOr(Message(None, [])) else Message(None, [])
  }

  function ResponseFinish(r: ChatResponse): Option<string> {
    if r.choices != [] then r.choices[0].finishReason else None
  }

  // ---- What the upstream's words mean ----

  /** The arguments a text stands for: the object or array it is, and the empty object for any other text. */
  predicate ReadsAs(parse: JsonParser, text: string, arguments: Json) {
    if text != "" && parse(text).Some? && (parse(text).value.Object? || parse(text).value.Array?)
    then arguments == parse(text).value
    else arguments == Object(map[])
  }

  predicate CallSays(parse: JsonParser, c: ToolCall, call: ResponseCall) {
    && c.id == call.id.GetOr("") && c.name == call.name.GetOr("")
    && ReadsAs(parse, call.arguments.GetOr(""), c.arguments)
  }

  /** Absent counts are zeros, and an absent total is the sum. */
  predicate UsageSays(u: TokenUsage, reported: UsageFrame) {
    && u.promptTokens == (if reported.promptTokens.Some? then reported.promptTokens.value else 0.0)
    && u.completionTokens == (if reported.completionTokens.Some? then reported.completionTokens.value else 0.0)
    && u.totalTokens == (if reported.totalTokens.Some? then reported.totalTokens.value
                         else u.promptTokens + u.completionTokens)
  }

  predicate FinishSays(finish: Option<FinishReason>, word: Option<string>) {
    && (finish == Some(Stop) <==> word == Some("stop"))
    && (finish == Some(Length) <==> word == Some("length"))
    && (finish == Some(ContentFilter) <==> word == Some("content_filter"))
    && (finish == Some(ToolCalls) <==> word == Some("tool_calls") || word == Some("function_call"))
  }

  lemma {:induction false} WordsAreRead(parse: JsonParser, call: ResponseCall, u: UsageFrame, word: Option<string>)
    ensures CallSays(parse, WholeCall(parse, call), call)
    ensures UsageSays(UsageOf(u), u)
    ensures FinishSays(MapFinishReason(word), word)
  {}

  /** Only the first choice counts. */
  lemma {:induction false} FirstChoiceCounts(r: ChatResponse)
    ensures r.choices == [] ==> ResponseMessage(r) == Message(None, []) && ResponseFinish(r) == None
    ensures r.choices != [] ==>
              && ResponseFinish(r) == r.choices[0].finishReason
              && (r.choices[0].message.Some? ==> Some(ResponseMessage(r)) == r.choices[0].message)
              && (r.choices[0].message.None? ==> ResponseMessage(r) == Message(None, []))
  {}

  predicate IsNamed(call: ResponseCall) {
    NonEmpty(call.id).Some? && NonEmpty(call.name).Some?
  }

  function WholeCall(parse: JsonParser, call: ResponseCall): ToolCall {
    ToolCall(call.id.GetOr(""), call.name.GetOr(""), ParseArgs(parse, call.arguments.GetOr("")))
  }

  function NamedCall(parse: JsonParser): ResponseCall -> seq<ToolCall> {
    call => if IsNamed(call) then [WholeCall(parse, call)] else []
  }

  method ParseOpenAiToolCalls(parse: JsonParser, toolCalls: seq<ResponseCall>) returns (parsed: seq<ToolCall>)
    ensures parsed == FlatMap(NamedCall(parse), toolCalls)
  {
    parsed := [];
    for n := 0 to |toolCalls|
      invariant parsed == FlatMap(NamedCall(parse), toolCalls[..n])
    {
      var call := toolCalls[n];
      assert toolCalls[..n + 1] == toolCalls[..n] + [call];
      FlatMapSnoc(NamedCall(parse), toolCalls[..n], call);
      if call.id.GetOr("") == "" || call.name.GetOr("") == "" {
        continue;
      }
      parsed := parsed + [WholeCall(parse, call)];
    }
    assert toolCalls[..|toolCalls|] == toolCalls;
  }

  function NormalizeResponse(parse: JsonParser, r: ChatResponse): Result<ProviderChatResponse, string> {
    var content, calls := ResponseMessage(r).content.GetOr(""), FlatMap(NamedCall(parse), ResponseMessage(r).toolCalls);
    if content == "" && calls == [] then Failure(r.errorMessage.GetOr("empty model response"))
    else
      Success(ProviderChatResponse(content, calls, MapFinishReason(ResponseFinish(r)),
                                   UsageOf(r.usage.GetOr(UsageFrame(None, None, None)))))
  }

  // ---- Cutting a response into chunks ----

  ghost predicate Carries(fragments: seq<ToolFragment>, i: int) {
    exists p :: p in fragments && IndexOf(p) == i
  }

  /** Fragments of the calls, interleaved freely, except that each call starts after the ones before it. */
  ghost predicate InArrayOrder(fragments: seq<ToolFragment>) {
    forall q, i {:trigger Carries(fragments[..q], i)} ::
      0 <= q < |fragments| && 0 <= i < IndexOf(fragments[q]) ==> Carries(fragments[..q], i)
  }

  ghost predicate CutsCall(fragments: seq<ToolFragment>, i: int, call: ResponseCall) {
    && Carries(fragments, i)
    && (forall p :: p in fragments && IndexOf(p) == i && NonEmpty(p.id).Some? ==> NonEmpty(p.id) == NonEmpty(call.id))
    && (forall p :: p in fragments && IndexOf(p) == i && NonEmpty(p.name).Some? ==>
         NonEmpty(p.name) == NonEmpty(call.name))
    && (NonEmpty(call.id).Some? ==> exists p :: p in fragments && IndexOf(p) == i && NonEmpty(p.id).Some?)
    && (NonEmpty(call.name).Some? ==> exists p :: p in fragments && IndexOf(p) == i && NonEmpty(p.name).Some?)
    && FlatMap(ArgumentsAt(i), fragments) == call.arguments.GetOr("")
  }

  ghost predicate CutsCalls(fragments: seq<ToolFragment>, calls: seq<ResponseCall>) {
    && (forall p :: p in fragments ==> 0 <= IndexOf(p) < |calls|)
    && InArrayOrder(fragments)
    && forall i :: 0 <= i < |calls| ==> CutsCall(fragments, i, calls[i])
  }

  /** The frames are r in pieces: its text, its calls, its finish reason and, last, its usage. */
  ghost predicate CutOf(frames: seq<Frame>, broken: bool, r: ChatResponse) {
    var live := Live(frames);
    && !Fails(frames, broken)
    && (forall f :: f in live ==> !f.Malformed?)
    && FlatMap(ContentOf, live) == ResponseMessage(r).content.GetOr("")
    && CutsCalls(FlatMap(FragmentsOf, live), ResponseMessage(r).toolCalls)
    && (forall f :: f in live && RawFinish(f).Some? ==> RawFinish(f) == ResponseFinish(r))
    && (NonEmpty(ResponseFinish(r)).Some? ==> exists f :: f in live && RawFinish(f).Some?)
    && LastSome(ReportedUsage, live) == r.usage
  }

  /** The events say what the normalized response says. Usage the upstream never sent reads as zeros. */
  ghost predicate Agrees(events: seq<StreamEvent>, r: Result<ProviderChatResponse, string>) {
    && EndsInOneDone(events)
    && var done := events[|events| - 1];
    && r.Success?
    && TextIn(events) == r.value.content
    && CallsIn(events) == r.value.toolCalls
    && done.finishReason == r.value.finishReason
    && done.usage.GetOr(NO_USAGE) == r.value.usage
  }

  // ---- What the decoder makes of a cut ----

  lemma {:induction false} FirstSeenMembers(fragments: seq<ToolFragment>, i: int)
    ensures i in FirstSeen(fragments) <==> Carries(fragments, i)
  {
    if fragments != [] {
      var init, last := fragments[..|fragments| - 1], fragments[|fragments| - 1];
      assert fragments == init + [last];
      FirstSeenMembers(init, i);
      assert Carries(fragments, i) <==> Carries(init, i) || IndexOf(last) == i;
    }
  }

  /** Array order makes the buffer map iterate 0, 1, 2, ... */
  lemma {:induction false} FirstSeenCounts(fragments: seq<ToolFragment>)
    requires InArrayOrder(fragments) && forall p :: p in fragments ==> 0 <= IndexOf(p)
    ensures forall k :: 0 <= k < |FirstSeen(fragments)| ==> FirstSeen(fragments)[k] == k
  {
    if fragments != [] {
      var init, last := fragments[..|fragments| - 1], fragments[|fragments| - 1];
      assert fragments == init + [last];
      forall q, j | 0 <= q < |init| && 0 <= j < IndexOf(init[q]) ensures Carries(init[..q], j) {
        assert fragments[..q] == init[..q] && Carries(fragments[..q], j);
      }
      FirstSeenCounts(init);
      var seen, i := FirstSeen(init), IndexOf(last);
      assert i < |seen| ==> seen[i] == i;
      if i !in seen {
        forall j | 0 <= j < i ensures j in seen {
          assert Carries(fragments[..|init|], j);
          FirstSeenMembers(init, j);
        }
        assert |seen| < i ==> |seen| in seen;
      }
    }
  }

  lemma {:induction false} CutOrder(fragments: seq<ToolFragment>, calls: seq<ResponseCall>)
    requires CutsCalls(fragments, calls)
    ensures |FirstSeen(fragments)| == |calls|
    ensures forall k :: 0 <= k < |calls| ==> FirstSeen(fragments)[k] == k
  {
    FirstSeenCounts(fragments);
    var order := FirstSeen(fragments);
    if |order| < |calls| {
      assert CutsCall(fragments, |order|, calls[|order|]);
      FirstSeenMembers(fragments, |order|);
    } else if |calls| < |order| {
      assert order[|calls|] in order;
      FirstSeenMembers(fragments, |calls|);
    }
  }

  lemma {:induction false} CutBuffer(fragments: seq<ToolFragment>, i: int, call: ResponseCall)
    requires CutsCall(fragments, i, call)
    ensures BufferAt(fragments, i) == ToolBuffer(call.id.GetOr(""), call.name.GetOr(""), call.arguments.GetOr(""))
  {
    var id, name := call.id.GetOr(""), call.name.GetOr("");
    LastSomeUniform(IdAt(i), fragments, id);
    LastSomeUniform(NameAt(i), fragments, name);
    if p :| p in fragments && IndexOf(p) == i && NonEmpty(p.id).Some? {
      assert IdAt(i)(p).Some?;
    }
    if p :| p in fragments && IndexOf(p) == i && NonEmpty(p.name).Some? {
      assert NameAt(i)(p).Some?;
    }
  }

  lemma {:induction false} TextOfImmediate(live: seq<Frame>)
    ensures TextIn(FlatMap(ImmediateEvents, live)) == FlatMap(ContentOf, live)
    ensures CallsIn(FlatMap(ImmediateEvents, live)) == []
  {
    if live != [] {
      var init, last := live[..|live| - 1], live[|live| - 1];
      TextOfImmediate(init);
      FlatMapAppend(TextOf, FlatMap(ImmediateEvents, init), ImmediateEvents(last));
      FlatMapAppend(CallOf, FlatMap(ImmediateEvents, init), ImmediateEvents(last));
    }
  }

  lemma {:induction false} CallsOfCallEvents(events: seq<StreamEvent>)
    requires forall e :: e in events ==> e.ToolCallEvent?
    ensures TextIn(events) == ""
    ensures CallsIn(events) == seq(|events|, k requires 0 <= k < |events| => events[k].toolCall)
  {
    FlatMapNothing(TextOf, events);
    if events != [] {
      CallsOfCallEvents(events[..|events| - 1]);
    }
  }

  lemma {:induction false} FinishOfCut(frames: seq<Frame>, broken: bool, r: ChatResponse)
    requires CutOf(frames, broken, r)
    ensures LastSome(MappedFinish, Live(frames)) == MapFinishReason(ResponseFinish(r))
  {
    var live, finish := Live(frames), MapFinishReason(ResponseFinish(r));
    LastSomeUniform(MappedFinish, live, finish.GetOr(Stop));
    if finish.Some? {
      var f :| f in live && RawFinish(f).Some?;
      assert MappedFinish(f).Some?;
    }
  }

  lemma {:induction false} CutToolEvents(parse: JsonParser, fragments: seq<ToolFragment>, calls: seq<ResponseCall>)
    requires CutsCalls(fragments, calls)
    ensures TextIn(ToolEvents(parse, fragments)) == ""
    ensures CallsIn(ToolEvents(parse, fragments)) ==
            seq(|calls|, k requires 0 <= k < |calls| => WholeCall(parse, calls[k]))
  {
    CallsOfCallEvents(ToolEvents(parse, fragments));
    CutOrder(fragments, calls);
    forall k | 0 <= k < |calls| ensures CallAt(parse, BufferAt(fragments, k)) == WholeCall(parse, calls[k]) {
      CutBuffer(fragments, k, calls[k]);
    }
  }

  lemma {:induction false} ReadTogether(a: seq<StreamEvent>, b: seq<StreamEvent>, done: StreamEvent)
    requires done.Done?
    ensures TextIn(a + b + [done]) == TextIn(a) + TextIn(b)
    ensures CallsIn(a + b + [done]) == CallsIn(a) + CallsIn(b)
  {
    FlatMapAppend(TextOf, a, b);
    FlatMapSnoc(TextOf, a + b, done);
    FlatMapAppend(CallOf, a, b);
    FlatMapSnoc(CallOf, a + b, done);
  }

  /** The decoder's account of any cut: the text, every call whole, the finish reason, the usage. */
  lemma {:induction false} DecodeCut(parse: JsonParser, frames: seq<Frame>, broken: bool, r: ChatResponse)
    requires CutOf(frames, broken, r)
    ensures var events, calls := Decode(parse, frames, broken).events, ResponseMessage(r).toolCalls;
            && EndsInOneDone(events)
            && TextIn(events) == ResponseMessage(r).content.GetOr("")
            && CallsIn(events) == seq(|calls|, k requires 0 <= k < |calls| => WholeCall(parse, calls[k]))
            && events[|events| - 1] ==
               Done(if r.usage.Some? then Some(UsageOf(r.usage.value)) else None, MapFinishReason(ResponseFinish(r)))
  {
    DecodeWellShaped(parse, frames, broken);
    var live := Live(frames);
    var fragments := FlatMap(FragmentsOf, live);
    FinishOfCut(frames, broken, r);
    TextOfImmediate(live);
    CutToolEvents(parse, fragments, ResponseMessage(r).toolCalls);
    ReadTogether(FlatMap(ImmediateEvents, live), ToolEvents(parse, fragments),
                 Done(Usage(live), LastSome(MappedFinish, live)));
  }

  /**
   * The same in the response's own words: each call has its id, its name and the arguments its text stands for, in
   * array order; `done` has the response's counts, if it has any, and its finish reason.
   */
  lemma {:induction false} CutSaysTheResponse(parse: JsonParser, frames: seq<Frame>, broken: bool, r: ChatResponse)
    requires CutOf(frames, broken, r)
    ensures var events, calls := Decode(parse, frames, broken).events, ResponseMessage(r).toolCalls;
            && EndsInOneDone(events)
            && TextIn(events) == ResponseMessage(r).content.GetOr("")
            && |CallsIn(events)| == |calls|
            && (forall k :: 0 <= k < |calls| ==> CallSays(parse, CallsIn(events)[k], calls[k]))
            && var done := events[|events| - 1];
            && (done.usage.Some? <==> r.usage.Some?)
            && (r.usage.Some? ==> UsageSays(done.usage.value, r.usage.value))
            && FinishSays(done.finishReason, ResponseFinish(r))
  {
    DecodeCut(parse, frames, broken, r);
    var calls := ResponseMessage(r).toolCalls;
    var none := UsageFrame(None, None, None);
    WordsAreRead(parse, ResponseCall(None, None, None), r.usage.GetOr(none), ResponseFinish(r));
    forall k | 0 <= k < |calls| ensures CallSays(parse, WholeCall(parse, calls[k]), calls[k]) {
      WordsAreRead(parse, calls[k], none, None);
    }
  }

  /** A call is kept exactly when it has an id and a name, and then as it says. */
  lemma {:induction false} NamedCallSays(parse: JsonParser, call: ResponseCall)
    ensures var kept := NamedCall(parse)(call);
            if call.id.GetOr("") == "" || call.name.GetOr("") == "" then kept == []
            else |kept| == 1 && CallSays(parse, kept[0], call) && kept[0].id != "" && kept[0].name != ""
  {
    WordsAreRead(parse, call, UsageFrame(None, None, None), None);
  }

  ghost predicate KeptIn(parse: JsonParser, kept: seq<ToolCall>, call: ResponseCall) {
    exists c :: c in kept && CallSays(parse, c, call)
  }

  ghost predicate KeptFrom(parse: JsonParser, calls: seq<ResponseCall>, c: ToolCall) {
    exists call :: call in calls && c.id != "" && c.name != "" && CallSays(parse, c, call)
  }

  lemma {:induction false} NamedCallsSay(parse: JsonParser, calls: seq<ResponseCall>, kept: seq<ToolCall>)
    requires kept == FlatMap(NamedCall(parse), calls)
    ensures forall c :: c in kept ==> KeptFrom(parse, calls, c)
    ensures forall call :: call in calls && call.id.GetOr("") != "" && call.name.GetOr("") != "" ==>
              KeptIn(parse, kept, call)
  {
    if calls != [] {
      var init, last := calls[..|calls| - 1], calls[|calls| - 1];
      var before := FlatMap(NamedCall(parse), init);
      NamedCallsSay(parse, init, before);
      NamedCallSays(parse, last);
      assert calls == init + [last] && kept == before + NamedCall(parse)(last);
      forall c | c in kept ensures KeptFrom(parse, calls, c) {
        if c in before {
          assert KeptFrom(parse, init, c);
        }
      }
      forall call | call in calls && call.id.GetOr("") != "" && call.name.GetOr("") != ""
        ensures KeptIn(parse, kept, call)
      {
        if call in init {
          assert KeptIn(parse, before, call);
        } else {
          assert NamedCall(parse)(last)[0] in kept;
        }
      }
    }
  }

  /** What the normalizer makes of a response, in the response's own words. */
  lemma {:induction false} NormalizedSaysTheResponse(parse: JsonParser, r: ChatResponse)
    ensures var n, m := NormalizeResponse(parse, r), ResponseMessage(r);
            && (n.Failure? <==>
                  && m.content.GetOr("") == ""
                  && forall call :: call in m.toolCalls ==> call.id.GetOr("") == "" || call.name.GetOr("") == "")
            && (n.Success? ==>
                  && n.value.content == m.content.GetOr("")
                  && (forall c :: c in n.value.toolCalls ==> KeptFrom(parse, m.toolCalls, c))
                  && (forall call :: call in m.toolCalls && call.id.GetOr("") != "" && call.name.GetOr("") != "" ==>
                        KeptIn(parse, n.value.toolCalls, call))
                  && UsageSays(n.value.usage, r.usage.GetOr(UsageFrame(None, None, None)))
                  && FinishSays(n.value.finishReason, ResponseFinish(r)))
  {
    var none := UsageFrame(None, None, None);
    var calls := ResponseMessage(r).toolCalls;
    var kept := FlatMap(NamedCall(parse), calls);
    NamedCallsSay(parse, calls, kept);
    WordsAreRead(parse, ResponseCall(None, None, None), r.usage.GetOr(none), ResponseFinish(r));
    if kept != [] {
      assert KeptFrom(parse, calls, kept[0]);
    }
  }

  lemma {:induction false} NamedCallsCount(parse: JsonParser, calls: seq<ResponseCall>)
    ensures |FlatMap(NamedCall(parse), calls)| <= |calls|
    ensures |FlatMap(NamedCall(parse), calls)| == |calls| <==> forall c :: c in calls ==> IsNamed(c)
    ensures (forall c :: c in calls ==> IsNamed(c)) ==>
              FlatMap(NamedCall(parse), calls) ==
                seq(|calls|, k requires 0 <= k < |calls| => WholeCall(parse, calls[k]))
  {
    if calls != [] {
      var init, last := calls[..|calls| - 1], calls[|calls| - 1];
      assert calls == init + [last];
      NamedCallsCount(parse, init);
      assert last in calls;
      assert forall c :: c in calls <==> c in init || c == last;
    }
  }

  /**
   * Stream and non-stream agree on every cut of a response exactly when every tool call has an id and a
   * name (the normalizer skips the others, the decoder does not) and there is some text or call (else the
   * normalizer throws).
   */
  lemma {:induction false} StreamAgreesWithResponse(
      parse: JsonParser, frames: seq<Frame>, broken: bool, r: ChatResponse)
    requires CutOf(frames, broken, r)
    ensures Agrees(Decode(parse, frames, broken).events, NormalizeResponse(parse, r)) <==>
            var m := ResponseMessage(r);
            (forall c :: c in m.toolCalls ==> IsNamed(c)) && (m.content.GetOr("") != "" || m.toolCalls != [])
  {
    DecodeCut(parse, frames, broken, r);
    NamedCallsCount(parse, ResponseMessage(r).toolCalls);
  }

  /** Two cuts of one response are indistinguishable up to where the text is split. */
  lemma {:induction false} CutsAreEquivalent(
      parse: JsonParser, frames: seq<Frame>, broken: bool, frames': seq<Frame>, broken': bool, r: ChatResponse)
    requires CutOf(frames, broken, r) && CutOf(frames', broken', r)
    ensures var a, b := Decode(parse, frames, broken).events, Decode(parse, frames', broken').events;
            TextIn(a) == TextIn(b) && CallsIn(a) == CallsIn(b) && a[|a| - 1] == b[|b| - 1]
  {
    DecodeCut(parse, frames, broken, r);
    DecodeCut(parse, frames', broken', r);
  }

  // ---- Every response has a cut ----

  function WholeFragments(calls: seq<ResponseCall>): seq<ToolFragment> {
    seq(|calls|, k requires 0 <= k < |calls| => ToolFragment(Some(k), calls[k].id, calls[k].name, calls[k].arguments))
  }

  function OneChunk(r: ChatResponse): seq<Frame> {
    var m := ResponseMessage(r);
    [Payload(Chunk(r.usage, [ChunkChoice(Some(Delta(m.content, WholeFragments(m.toolCalls))), ResponseFinish(r))])),
      Sentinel]
  }

  lemma {:induction false} WholeArguments(calls: seq<ResponseCall>, n: nat, i: nat)
    requires n <= |calls| && i < |calls|
    ensures FlatMap(ArgumentsAt(i), WholeFragments(calls)[..n]) == if i < n then calls[i].arguments.GetOr("") else ""
  {
    if n > 0 {
      var fragments := WholeFragments(calls);
      assert fragments[..n] == fragments[..n - 1] + [fragments[n - 1]];
      FlatMapSnoc(ArgumentsAt(i), fragments[..n - 1], fragments[n - 1]);
      WholeArguments(calls, n - 1, i);
    }
  }

  lemma {:induction false} WholeFragmentsCut(calls: seq<ResponseCall>)
    ensures CutsCalls(WholeFragments(calls), calls)
  {
    var fragments := WholeFragments(calls);
    forall q, i | 0 <= q < |fragments| && 0 <= i < IndexOf(fragments[q]) ensures Carries(fragments[..q], i) {
      assert fragments[..q][i] == fragments[i] && fragments[i] in fragments[..q];
    }
    forall i | 0 <= i < |calls| ensures CutsCall(fragments, i, calls[i]) {
      assert fragments[i] in fragments && Carries(fragments, i);
      WholeArguments(calls, |calls|, i);
      assert fragments[..|calls|] == fragments;
    }
  }

  /** A response sent whole in one chunk is a cut of itself, so the law above is never vacuous. */
  lemma {:induction false} OneChunkCuts(r: ChatResponse)
    ensures CutOf(OneChunk(r), false, r)
  {
    var frames, m := OneChunk(r), ResponseMessage(r);
    var f, fragments := frames[0], WholeFragments(m.toolCalls);
    assert !EndsReading(f) && EndsReading(frames[1]);
    assert Live(frames) == [f];
    FlatMapSnoc(ContentOf, [], f);
    FlatMapSnoc(FragmentsOf, [], f);
    LastSomeSnoc(ReportedUsage, [], f);
    assert [] + [f] == [f] && [] + fragments == fragments;
    WholeFragmentsCut(m.toolCalls);
    assert f in [f];
  }
}
