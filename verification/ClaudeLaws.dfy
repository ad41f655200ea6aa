/** What the Anthropic decoder does with any frames at all, said of the frames themselves. */
module ClaudeLaws {
  import opened ClaudeAgreement
  import opened ClaudeStream
  import opened Json
  import opened RuntimeTypes
  import opened Sequences
  import opened Wrappers

  lemma {:induction false} DoneOf(parse: JsonParser, frames: seq<Frame>)
    requires NullPayload !in frames
    ensures var run := Decode(parse, frames, false);
            && !run.failed && run.events != []
            && run.events[|run.events| - 1] == Done(Usage(frames), LastSome(MappedStop, frames))
  {}

  // ---- Usage ----

  /** The frame opens the message with usage. */
  predicate Opens(f: Frame) {
    f.Payload? && f.event.MessageStart? && f.event.usage.Some?
  }

  /** The frame reports a count of tokens so far. */
  predicate Counts(f: Frame) {
    f.Payload? && f.event.MessageDelta? && f.event.outputTokens.Some?
  }

  predicate SaysUsage(f: Frame) {
    Opens(f) || Counts(f)
  }

  /** The output count that a frame reports: an opening without one says zero. */
  function OutputSaid(f: Frame): real
    requires SaysUsage(f)
  {
    if Counts(f) then f.event.outputTokens.value
    else if f.event.usage.value.outputTokens.Some? then f.event.usage.value.outputTokens.value else 0.0
  }

  function InputSaid(f: Frame): real
    requires Opens(f)
  {
    if f.event.usage.value.inputTokens.Some? then f.event.usage.value.inputTokens.value else 0.0
  }

  /**
   * When frame o is the last to carry usage, `done` has its output count; the input count is that of the last opening,
   * frame i, or zero when there is none; and the total is their sum.
   */
  lemma {:induction false} DoneHasTheLastCounts(parse: JsonParser, frames: seq<Frame>, o: nat, i: int)
    requires NullPayload !in frames && o < |frames| && SaysUsage(frames[o])
    requires forall j :: o < j < |frames| ==> !SaysUsage(frames[j])
    requires -1 <= i <= o && (i >= 0 ==> Opens(frames[i])) && forall j :: i < j < |frames| ==> !Opens(frames[j])
    ensures var done := Decode(parse, frames, false).events[|Decode(parse, frames, false).events| - 1];
            && done.Done? && done.usage.Some?
            && done.usage.value.completionTokens == OutputSaid(frames[o])
            && done.usage.value.promptTokens == (if i >= 0 then InputSaid(frames[i]) else 0.0)
            && done.usage.value.totalTokens == done.usage.value.promptTokens + done.usage.value.completionTokens
  {
    DoneOf(parse, frames);
    forall j | o < j < |frames| ensures OutputReport(frames[j]).None? {
      assert !SaysUsage(frames[j]);
    }
    LastSomeAt(OutputReport, frames, o);
    forall j | i < j < |frames| ensures InputReport(frames[j]).None? {
      assert !Opens(frames[j]);
    }
    if i >= 0 {
      LastSomeAt(InputReport, frames, i);
    } else {
      LastSomeNone(InputReport, frames);
    }
  }

  /** `done` is without usage exactly when no frame carries any. */
  lemma {:induction false} DoneHasUsageIffSaid(parse: JsonParser, frames: seq<Frame>)
    requires NullPayload !in frames
    ensures var done := Decode(parse, frames, false).events[|Decode(parse, frames, false).events| - 1];
            done.Done? && (done.usage.Some? <==> exists f :: f in frames && SaysUsage(f))
  {
    DoneOf(parse, frames);
    UsageIffSaid(frames);
  }

  lemma {:induction false} UsageIffSaid(frames: seq<Frame>)
    ensures LastSome(OutputReport, frames).Some? <==> exists f :: f in frames && SaysUsage(f)
  {
    if frames != [] {
      var init, last := frames[..|frames| - 1], frames[|frames| - 1];
      UsageIffSaid(init);
      assert frames == init + [last];
      assert OutputReport(last).Some? <==> SaysUsage(last);
      assert SaysUsage(last) ==> last in frames;
      if f :| f in frames && SaysUsage(f) && f != last {
        assert f in init;
      }
    }
  }

  // ---- Stop reason ----

  predicate SaysStop(f: Frame, word: string) {
    && f.Payload? && f.event.MessageDelta? && f.event.stopReason == Some(word)
    && word in {"end_turn", "stop_sequence", "tool_use", "max_tokens"}
  }

  /** `done` has the last stop reason that is known. */
  lemma {:induction false} DoneHasTheLastStop(parse: JsonParser, frames: seq<Frame>, k: nat, word: string)
    requires NullPayload !in frames && k < |frames| && SaysStop(frames[k], word)
    requires forall j, other :: k < j < |frames| ==> !SaysStop(frames[j], other)
    ensures var done := Decode(parse, frames, false).events[|Decode(parse, frames, false).events| - 1];
            done.Done? && FinishSays(done.finishReason, Some(word))
  {
    DoneOf(parse, frames);
    forall j | k < j < |frames| ensures MappedStop(frames[j]).None? {
      if MappedStop(frames[j]).Some? {
        assert SaysStop(frames[j], frames[j].event.stopReason.value);
      }
    }
    LastSomeAt(MappedStop, frames, k);
    WordsAreRead(parse, "", Null, Some(word));
  }

  // ---- Failures ----

  /** A null payload makes the decoder throw after what came before it, and a transport that breaks after everything. */
  lemma {:induction false} NullAndBreakThrow(parse: JsonParser, frames: seq<Frame>, rest: seq<Frame>, broken: bool)
    requires NullPayload !in frames
    ensures Decode(parse, frames, true) == StreamRun(EventsFrom(parse, [], frames), true)
    ensures Decode(parse, frames + [NullPayload] + rest, broken) == StreamRun(EventsFrom(parse, [], frames), true)
  {
    var all := frames + [NullPayload] + rest;
    assert NullPayload in all by {
      assert all[|frames|] == NullPayload;
    }
    assert all == frames + ([NullPayload] + rest);
    EventsAppend(parse, [], frames, [NullPayload] + rest);
  }

  function ErrorOf(e: StreamEvent): seq<StreamEvent> {
    if e.Error? then [e] else []
  }

  function ReportOf(f: Frame): seq<StreamEvent> {
    match f
    case Malformed(payload) => [Error("PARSE_FAILED", "Invalid SSE chunk: " + payload)]
    case Payload(ErrorEvent(code, message)) =>
      [Error(if code.Some? then code.value else "PROVIDER_ERROR",
             if message.Some? then message.value else "claude stream error")]
    case _ => []
  }

  lemma {:induction false} ErrorsOfFew(events: seq<StreamEvent>)
    requires |events| <= 1
    ensures FlatMap(ErrorOf, events) == if events == [] then [] else ErrorOf(events[0])
  {
    if events != [] {
      assert events == [] + [events[0]];
      FlatMapSnoc(ErrorOf, [], events[0]);
    }
  }

  lemma {:induction false} DirectReports(f: Frame, direct: seq<StreamEvent>)
    requires direct == DirectEvents(f)
    ensures |direct| <= 1 && ReportOf(f) == if direct == [] then [] else ErrorOf(direct[0])
  {}

  lemma {:induction false} ErrorsOfFrame(parse: JsonParser, open: seq<ToolBlock>, f: Frame, later: seq<StreamEvent>)
    ensures FlatMap(ErrorOf, FrameEvents(parse, open, f) + later) == ReportOf(f) + FlatMap(ErrorOf, later)
  {
    var direct, calls := DirectEvents(f), CallEvents(CallOnClose(parse, open, ActionOf(f)));
    DirectReports(f, direct);
    ErrorsOfFew(direct);
    FlatMapAppend(ErrorOf, direct + calls, later);
    FlatMapAppend(ErrorOf, direct, calls);
    FlatMapNothing(ErrorOf, calls);
  }

  lemma {:induction false} ErrorsOfRun(parse: JsonParser, open: seq<ToolBlock>, frames: seq<Frame>)
    requires NullPayload !in frames
    ensures FlatMap(ErrorOf, EventsFrom(parse, open, frames)) == FlatMap(ReportOf, frames)
    decreases |frames|
  {
    if frames != [] {
      var f, rest := frames[0], frames[1..];
      var open' := Act(open, ActionOf(f));
      EventsUnfold(parse, open, frames);
      ErrorsOfRun(parse, open', rest);
      ErrorsOfFrame(parse, open, f, EventsFrom(parse, open', rest));
      FlatMapCons(ReportOf, f, rest);
      assert frames == [f] + rest;
    }
  }

  /** Each event that is no JSON, and each error the upstream sends, is passed on, once and in order. */
  lemma {:induction false} ErrorsArePassedOn(parse: JsonParser, frames: seq<Frame>)
    requires NullPayload !in frames
    ensures FlatMap(ErrorOf, Decode(parse, frames, false).events) == FlatMap(ReportOf, frames)
  {
    ErrorsOfRun(parse, [], frames);
    var now, drained := EventsFrom(parse, [], frames), CallEvents(Drained(parse, OpenAfter([], frames)));
    FlatMapAppend(ErrorOf, now, drained);
    FlatMapNothing(ErrorOf, drained);
    FlatMapSnoc(ErrorOf, now + drained, Done(Usage(frames), LastSome(MappedStop, frames)));
  }

  // ---- Blocks ----

  /** What opens, feeds and closes a tool block; nothing else touches one. */
  lemma {:induction false} BlocksAreTouchedBy(f: Frame, i: int)
    ensures ActionOf(f).Start? && ActionOf(f).index == i <==>
            && f.Payload? && f.event.ContentBlockStart? && f.event.index == Some(i)
            && f.event.contentBlock.Some? && f.event.contentBlock.value.kind == "tool_use"
    ensures ActionOf(f).Feed? && ActionOf(f).index == i <==>
            && f.Payload? && f.event.ContentBlockDelta? && f.event.index == Some(i)
            && f.event.delta.InputJsonDelta? && f.event.delta.partialJson.Some?
    ensures ActionOf(f) == Close(i) <==> f == Payload(ContentBlockStop(Some(i)))
    ensures ActionOf(f).Start? ==>
              var block := f.event.contentBlock.value;
              && ActionOf(f).id == (if block.id.Some? then block.id.value else "")
              && ActionOf(f).name == (if block.name.Some? then block.name.value else "")
    ensures ActionOf(f).Feed? ==> Some(ActionOf(f).text) == f.event.delta.partialJson
  {}
}
