/** What the OpenAI decoder does with any frames at all, said of the frames themselves. */
module OpenAiLaws {
  import opened Json
  import opened OpenAiAgreement
  import opened OpenAiStream
  import opened RuntimeTypes
  import opened Sequences
  import opened Wrappers

  // ---- Where reading ends ----

  /** Nothing among the first n frames ends the stream. */
  predicate Goes(frames: seq<Frame>, n: nat)
    requires n <= |frames|
  {
    forall i :: 0 <= i < n ==> frames[i] != Sentinel && frames[i] != NullPayload
  }

  lemma {:induction false} ReadsUpTo(frames: seq<Frame>, n: nat)
    requires n <= |frames| && Goes(frames, n) && (n < |frames| ==> frames[n] == Sentinel || frames[n] == NullPayload)
    ensures ReadLength(frames) == n
  {
    var m := ReadLength(frames);
    assert m < n ==> EndsReading(frames[m]);
    assert n < m ==> EndsReading(frames[n]);
  }

  /** The sentinel ends the stream well, whatever follows and however the transport then ends. */
  lemma {:induction false} SentinelEnds(parse: JsonParser, frames: seq<Frame>, rest: seq<Frame>, broken: bool)
    requires Goes(frames, |frames|)
    ensures Decode(parse, frames + [Sentinel] + rest, broken) == Decode(parse, frames, false)
    ensures !Decode(parse, frames, false).failed
  {
    var all := frames + [Sentinel] + rest;
    ReadsUpTo(frames, |frames|);
    ReadsUpTo(all, |frames|);
    assert all[..|frames|] == frames;
    assert frames[..|frames|] == frames;
  }

  /** A null payload, or a transport that breaks before the sentinel, makes the decoder throw. */
  lemma {:induction false} NullAndBreakThrow(parse: JsonParser, frames: seq<Frame>, rest: seq<Frame>, broken: bool)
    requires Goes(frames, |frames|)
    ensures Decode(parse, frames + [NullPayload] + rest, broken).failed && Decode(parse, frames, true).failed
  {
    ReadsUpTo(frames + [NullPayload] + rest, |frames|);
    ReadsUpTo(frames, |frames|);
  }

  // ---- Errors ----

  function ErrorOf(e: StreamEvent): seq<StreamEvent> {
    if e.Error? then [e] else []
  }

  function ReportOf(f: Frame): seq<StreamEvent> {
    match f
    case Malformed(payload) => [Error("PARSE_FAILED", "Invalid SSE chunk: " + payload)]
    case _ => []
  }

  lemma {:induction false} ReportsOf(frames: seq<Frame>)
    ensures FlatMap(ErrorOf, FlatMap(ImmediateEvents, frames)) == FlatMap(ReportOf, frames)
  {
    if frames != [] {
      var init, f := frames[..|frames| - 1], frames[|frames| - 1];
      ReportsOf(init);
      FlatMapAppend(ErrorOf, FlatMap(ImmediateEvents, init), ImmediateEvents(f));
      var now := ImmediateEvents(f);
      if now != [] {
        assert now == [] + [now[0]];
        FlatMapSnoc(ErrorOf, [], now[0]);
      }
    }
  }

  /** Each chunk that is no JSON is reported, once and in order, and nothing else is an error. */
  lemma {:induction false} MalformedChunksAreReported(parse: JsonParser, frames: seq<Frame>)
    requires Goes(frames, |frames|)
    ensures FlatMap(ErrorOf, Decode(parse, frames, false).events) == FlatMap(ReportOf, frames)
  {
    ReadsUpTo(frames, |frames|);
    assert frames[..|frames|] == frames;
    ReportsOf(frames);
    var now, tools := FlatMap(ImmediateEvents, frames), ToolEvents(parse, FlatMap(FragmentsOf, frames));
    var done := Done(Usage(frames), LastSome(MappedFinish, frames));
    FlatMapAppend(ErrorOf, now, tools);
    FlatMapNothing(ErrorOf, tools);
    FlatMapSnoc(ErrorOf, now + tools, done);
  }

  // ---- The last word ----

  predicate SaysUsage(f: Frame) {
    f.Payload? && f.chunk.usage.Some?
  }

  /** The frame's first choice carries a finish reason that is known. */
  predicate SaysFinish(f: Frame, word: string) {
    && f.Payload? && f.chunk.choices != [] && f.chunk.choices[0].finishReason == Some(word)
    && word in {"stop", "length", "content_filter", "tool_calls", "function_call"}
  }

  lemma {:induction false} DoneOf(parse: JsonParser, frames: seq<Frame>)
    requires Goes(frames, |frames|)
    ensures var events := Decode(parse, frames, false).events;
            events != [] && events[|events| - 1] == Done(Usage(frames), LastSome(MappedFinish, frames))
  {
    ReadsUpTo(frames, |frames|);
    assert frames[..|frames|] == frames;
  }

  /** `done` has the counts of the last frame that carries usage, and none when no frame does. */
  lemma {:induction false} DoneHasTheLastUsage(parse: JsonParser, frames: seq<Frame>, k: nat)
    requires Goes(frames, |frames|) && k <= |frames| && forall j :: k < j < |frames| ==> !SaysUsage(frames[j])
    ensures var events := Decode(parse, frames, false).events;
            && events != [] && events[|events| - 1].Done?
            && var usage := events[|events| - 1].usage;
            if k < |frames| && SaysUsage(frames[k])
            then usage.Some? && UsageSays(usage.value, frames[k].chunk.usage.value)
            else (forall j :: 0 <= j < |frames| ==> !SaysUsage(frames[j])) ==> usage.None?
  {
    DoneOf(parse, frames);
    if k < |frames| && SaysUsage(frames[k]) {
      LastSomeAt(ReportedUsage, frames, k);
    } else if forall j :: 0 <= j < |frames| ==> !SaysUsage(frames[j]) {
      LastSomeNone(ReportedUsage, frames);
    }
  }

  /** `done` has the last finish reason that is known. */
  lemma {:induction false} DoneHasTheLastFinish(parse: JsonParser, frames: seq<Frame>, k: nat, word: string)
    requires Goes(frames, |frames|) && k < |frames| && SaysFinish(frames[k], word)
    requires forall j, other :: k < j < |frames| ==> !SaysFinish(frames[j], other)
    ensures var events := Decode(parse, frames, false).events;
            events != [] && events[|events| - 1].Done? && FinishSays(events[|events| - 1].finishReason, Some(word))
  {
    DoneOf(parse, frames);
    forall j | k < j < |frames| ensures MappedFinish(frames[j]).None? {
      if MappedFinish(frames[j]).Some? {
        assert SaysFinish(frames[j], frames[j].chunk.choices[0].finishReason.value);
      }
    }
    LastSomeAt(MappedFinish, frames, k);
  }

  // ---- Tool calls of any stream ----

  /** The fragments a frame brings: those of its first choice. */
  function Brings(f: Frame): seq<ToolFragment> {
    match f
    case Payload(Chunk(_, choices)) =>
      if choices == [] || choices[0].delta.None? then [] else choices[0].delta.value.toolCalls
    case _ => []
  }

  /** A fragment without an index belongs to the first call. */
  predicate IsAt(p: ToolFragment, i: int) {
    p.index == Some(i) || (p.index.None? && i == 0)
  }

  function Given(text: Option<string>): bool {
    text.Some? && text.value != ""
  }

  /** Fragment k has the last word on the call at i: later ones there give no id, or no name. */
  ghost predicate LastId(fragments: seq<ToolFragment>, i: int, k: int) {
    && 0 <= k < |fragments| && IsAt(fragments[k], i) && Given(fragments[k].id)
    && forall j :: k < j < |fragments| && IsAt(fragments[j], i) ==> !Given(fragments[j].id)
  }

  ghost predicate LastName(fragments: seq<ToolFragment>, i: int, k: int) {
    && 0 <= k < |fragments| && IsAt(fragments[k], i) && Given(fragments[k].name)
    && forall j :: k < j < |fragments| && IsAt(fragments[j], i) ==> !Given(fragments[j].name)
  }

  /** The texts of the call at i, joined in order. */
  function JoinedAt(fragments: seq<ToolFragment>, i: int): string {
    if fragments == [] then ""
    else
      var p := fragments[|fragments| - 1];
      JoinedAt(fragments[..|fragments| - 1], i) + if IsAt(p, i) then p.arguments.GetOr("") else ""
  }

  lemma {:induction false} JoinedIsArguments(fragments: seq<ToolFragment>, i: int)
    ensures FlatMap(ArgumentsAt(i), fragments) == JoinedAt(fragments, i)
  {
    if fragments != [] {
      JoinedIsArguments(fragments[..|fragments| - 1], i);
    }
  }

  lemma {:induction false} BroughtFragments(frames: seq<Frame>)
    ensures FlatMap(FragmentsOf, frames) == FlatMap(Brings, frames)
  {
    if frames != [] {
      BroughtFragments(frames[..|frames| - 1]);
    }
  }

  /**
   * Every index that occurs makes a call, with the last id and the last name given for it and all its text in order.
   */
  lemma {:induction false} CallsHaveTheLastWord(
      parse: JsonParser, frames: seq<Frame>, fragments: seq<ToolFragment>, i: int, a: int, b: int)
    requires Goes(frames, |frames|) && fragments == FlatMap(Brings, frames)
    requires LastId(fragments, i, a) && LastName(fragments, i, b)
    ensures exists c :: c in CallsIn(Decode(parse, frames, false).events)
                        && Some(c.id) == fragments[a].id && Some(c.name) == fragments[b].name
                        && ReadsAs(parse, JoinedAt(fragments, i), c.arguments)
  {
    DecodedCalls(parse, frames, fragments);
    LastSomeAt(IdAt(i), fragments, a);
    LastSomeAt(NameAt(i), fragments, b);
    JoinedIsArguments(fragments, i);
    assert Carries(fragments, i) by {
      assert fragments[a] in fragments;
    }
    FirstSeenMembers(fragments, i);
    var order := FirstSeen(fragments);
    var k :| 0 <= k < |order| && order[k] == i;
    var c := CallAt(parse, BufferAt(fragments, i));
    assert CallsIn(Decode(parse, frames, false).events)[k] == c;
    assert c in CallsIn(Decode(parse, frames, false).events);
  }

  lemma {:induction false} DecodedCalls(parse: JsonParser, frames: seq<Frame>, fragments: seq<ToolFragment>)
    requires Goes(frames, |frames|) && fragments == FlatMap(Brings, frames)
    ensures var calls, order := CallsIn(Decode(parse, frames, false).events), FirstSeen(fragments);
            calls == seq(|order|, k requires 0 <= k < |order| => CallAt(parse, BufferAt(fragments, order[k])))
  {
    ReadsUpTo(frames, |frames|);
    assert frames[..|frames|] == frames;
    BroughtFragments(frames);
    var now, tools := FlatMap(ImmediateEvents, frames), ToolEvents(parse, fragments);
    TextOfImmediate(frames);
    CallsOfCallEvents(tools);
    ReadTogether(now, tools, Done(Usage(frames), LastSome(MappedFinish, frames)));
  }
}
