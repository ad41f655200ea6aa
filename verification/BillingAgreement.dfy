/** Streaming and not streaming the same response: what each writes of it. */
module BillingAgreement {
  import opened ChatGateway
  import opened ChatLaws
  import opened RuntimeTypes
  import opened Sequences
  import opened Wrappers
  import Claude = ClaudeStream
  import ClaudeAgreement
  import OpenAi = OpenAiStream
  import OpenAiAgreement

  /**
   * One candidate whose stream ends with the usage its answer has, or with none: both requests write the same when the
   * usage was sent. Without it the answer is logged with zeros, and the stream leaves no trace.
   */
  lemma {:induction false} OneCandidateLedgers(
      w: World, runs: nat -> StreamRun, call: Call, model: Model, response: ProviderChatResponse)
    requires w.leavesAfter.None? && w.behaviours(0).gate.None? && w.behaviours(0).chat == Success(response)
    requires !runs(0).failed && EndsInOneDone(runs(0).events)
    requires runs(0).events[|runs(0).events| - 1].usage.GetOr(NO_USAGE) == response.usage
    ensures ChatFrom(w, call, [model], 0, None).ledger == StreamFrom(w, runs, call, [model], 0, [], None).ledger <==>
            runs(0).events[|runs(0).events| - 1].usage.Some?
  {
    var models, run, spent := [model], runs(0), UsageLedger(w, call, model, response.usage);
    var usage := run.events[|run.events| - 1].usage;
    OneDoneUsage(run.events);
    var e := Some(ModelError(OtherException, call, model));
    var a := Attempted(w, w.behaviours(0), run, call, model, []);
    assert a.ledger == if usage.Some? then spent else NOTHING;
    if CanMeter(call) {
      assert ChatFrom(w, call, models, 0, None).ledger == spent;
    } else {
      assert ChatFrom(w, call, models, 1, e).ledger == StreamFrom(w, runs, call, models, 1, a.yielded, e).ledger;
      assert ChatFrom(w, call, models, 0, None).ledger == spent.Plus(ChatFrom(w, call, models, 1, e).ledger);
    }
    assert |spent.attempted| == 1;
  }

  /**
   * OpenAI dialect: however a response is cut, a stream of it writes what a chat answered with it writes, exactly when
   * the upstream reported usage.
   */
  lemma {:induction false} OpenAiBillsAlike(
      w: World, call: Call, model: Model, frames: seq<OpenAi.Frame>, broken: bool, thrown: Thrown,
      r: OpenAiAgreement.ChatResponse, response: ProviderChatResponse)
    requires w.leavesAfter.None? && w.behaviours(0).gate.None? && w.behaviours(0).chat == Success(response)
    requires OpenAiAgreement.NormalizeResponse(w.parse, r) == Success(response)
    requires OpenAiAgreement.CutOf(frames, broken, r)
    requires w.behaviours(0).stream == OpenAiBody(frames, broken, thrown)
    ensures ChatFrom(w, call, [model], 0, None).ledger == StreamFrom(w, Runs(w), call, [model], 0, [], None).ledger <==>
            r.usage.Some?
  {
    OpenAiAgreement.DecodeCut(w.parse, frames, broken, r);
    var run := OpenAi.Decode(w.parse, frames, broken);
    assert Runs(w)(0) == run;
    OneCandidateLedgers(w, Runs(w), call, model, response);
  }

  /** Anthropic dialect: the same, exactly when some frame of the stream carried usage. */
  lemma {:induction false} ClaudeBillsAlike(
      w: World, call: Call, model: Model, frames: seq<Claude.Frame>, parts: seq<seq<Claude.Frame>>,
      tail: seq<Claude.Frame>, thrown: Thrown, r: ClaudeAgreement.ClaudeResponse, response: ProviderChatResponse)
    requires w.leavesAfter.None? && w.behaviours(0).gate.None? && w.behaviours(0).chat == Success(response)
    requires ClaudeAgreement.NormalizeResponse(r) == Success(response)
    requires ClaudeAgreement.CutInto(w.parse, frames, parts, tail, r)
    requires w.behaviours(0).stream == ClaudeBody(frames, false, thrown)
    ensures ChatFrom(w, call, [model], 0, None).ledger == StreamFrom(w, Runs(w), call, [model], 0, [], None).ledger <==>
            LastSome(Claude.OutputReport, frames).Some?
  {
    ClaudeAgreement.DecodeCut(w.parse, frames, parts, tail, r);
    ClaudeAgreement.InputImpliesOutput(frames);
    var run := Claude.Decode(w.parse, frames, false);
    assert Runs(w)(0) == run;
    Claude.DecodeWellShaped(w.parse, frames, false);
    OneCandidateLedgers(w, Runs(w), call, model, response);
  }
}
