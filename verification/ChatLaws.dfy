/** What every run of the fallback loop promises its caller, the platform and the request log. */
module ChatLaws {
  import opened ChatGateway
  import opened RuntimeTypes
  import opened Sequences
  import opened Wrappers
  import Claude = ClaudeStream
  import OpenAi = OpenAiStream

  /** Two worlds that differ at most in how the platform and the database answer. */
  ghost predicate SameUpstream(w: World, w': World) {
    && w.registry == w'.registry && w.behaviours == w'.behaviours && w.parse == w'.parse
    && w.leavesAfter == w'.leavesAfter
  }

  // ---- Which candidate answers ----

  /**
   * Candidate k is let through by its gate and does not end the run: its call fails, or its answer cannot be metered.
   */
  ghost predicate ChatFallsThrough(w: World, call: Call, k: nat) {
    w.behaviours(k).gate.None? && (w.behaviours(k).chat.Failure? || !CanMeter(call))
  }

  /** The error kept of a candidate that fell through. */
  function FailureAt(w: World, call: Call, models: seq<Model>, k: nat): RuntimeError
    requires k < |models|
  {
    var reply := w.behaviours(k).chat;
    ModelError(if reply.Failure? then reply.error else OtherException, call, models[k])
  }

  lemma {:induction false} ChatFromFallsTo(
      w: World, call: Call, models: seq<Model>, k: nat, d: nat, last: Option<RuntimeError>)
    requires k <= d <= |models| && forall j :: k <= j < d ==> ChatFallsThrough(w, call, j)
    ensures ChatFrom(w, call, models, k, last).outcome ==
            ChatFrom(w, call, models, d, if k == d then last else Some(FailureAt(w, call, models, d - 1))).outcome
    decreases d - k
  {
    if k < d {
      assert ChatFallsThrough(w, call, k);
      ChatFromFallsTo(w, call, models, k + 1, d, Some(FailureAt(w, call, models, k)));
    }
  }

  /**
   * The first candidate that is denied, or answers a call that can be metered, decides; when none does, the error of
   * the last is thrown.
   */
  lemma {:induction false} ChatFallback(w: World, call: Call, models: seq<Model>, d: nat)
    requires d <= |models| && models != [] && forall j :: 0 <= j < d ==> ChatFallsThrough(w, call, j)
    ensures var outcome := ChatFrom(w, call, models, 0, None).outcome;
            if d == |models| then outcome == ChatThrew(FailureAt(w, call, models, d - 1))
            else if w.behaviours(d).gate.Some? then
              outcome == ChatThrew(ModelError(w.behaviours(d).gate.value, call, models[d]))
            else
              w.behaviours(d).chat.Success? && CanMeter(call) ==>
                outcome == Answered(models[d].modelCode, w.behaviours(d).chat.value)
  {
    ChatFromFallsTo(w, call, models, 0, d, None);
  }

  // ---- The shape of a composed stream ----

  lemma {:induction false} ProducedWellShaped(w: World, s: StreamAttempt)
    ensures WellShaped(Produced(w, s))
  {
    match s {
      case Unopened(_) =>
      case OpenAiBody(frames, broken, _) => OpenAi.DecodeWellShaped(w.parse, frames, broken);
      case ClaudeBody(frames, broken, _) => Claude.DecodeWellShaped(w.parse, frames, broken);
    }
  }

  /** Candidate k is let through by its gate and does not end the run: it throws, or its usage cannot be metered. */
  ghost predicate FallsThrough(w: World, call: Call, runs: nat -> StreamRun, k: nat) {
    && w.behaviours(k).gate.None?
    && (runs(k).failed || (!CanMeter(call) && LastSome(DoneUsage, runs(k).events).Some?))
  }

  /** The first candidate that ends the run: denied, or streamed to its end and metered if it must be. */
  ghost function Decisive(w: World, call: Call, runs: nat -> StreamRun, n: nat, k: nat): (d: nat)
    requires k <= n
    ensures k <= d <= n
    ensures forall j :: k <= j < d ==> FallsThrough(w, call, runs, j)
    ensures d < n ==> !FallsThrough(w, call, runs, d)
    decreases n - k
  {
    if k < n && FallsThrough(w, call, runs, k) then Decisive(w, call, runs, n, k + 1) else k
  }

  ghost predicate Wins(w: World, n: nat, d: nat) {
    d < n && w.behaviours(d).gate.None?
  }

  /** The output of candidates k to d, in order. */
  function PartialOutputs(runs: nat -> StreamRun, k: nat, d: nat): seq<StreamEvent>
    requires k <= d
    decreases d - k
  {
    if k == d then [] else runs(k).events + PartialOutputs(runs, k + 1, d)
  }

  /** The error kept of a stream that fell through. */
  function StreamFailureAt(
      w: World, call: Call, runs: nat -> StreamRun, models: seq<Model>, k: nat): RuntimeError
    requires k < |models|
  {
    ModelError(if runs(k).failed then w.behaviours(k).stream.thrown else OtherException, call, models[k])
  }

  lemma {:induction false} StreamFromShape(
      w: World, runs: nat -> StreamRun, call: Call, models: seq<Model>, k: nat,
      yielded: seq<StreamEvent>, last: Option<RuntimeError>)
    requires w.leavesAfter.None? && k <= |models|
    ensures var t, d := StreamFrom(w, runs, call, models, k, yielded, last), Decisive(w, call, runs, |models|, k);
            if Wins(w, |models|, d) then
              && t.outcome == Completed(models[d].modelCode)
              && t.yielded == yielded + PartialOutputs(runs, k, d) + runs(d).events
            else t.outcome.StreamThrew? && t.yielded == yielded + PartialOutputs(runs, k, d)
    decreases |models| - k
  {
    if k < |models| && FallsThrough(w, call, runs, k) {
      var e := Some(StreamFailureAt(w, call, runs, models, k));
      StreamFromShape(w, runs, call, models, k + 1, yielded + runs(k).events, e);
      var d := Decisive(w, call, runs, |models|, k + 1);
      assert yielded + runs(k).events + PartialOutputs(runs, k + 1, d) == yielded + PartialOutputs(runs, k, d);
    }
  }

  lemma {:induction false} RunsWellShaped(w: World)
    ensures forall k: nat :: WellShaped(Runs(w)(k))
  {
    forall k: nat ensures WellShaped(Runs(w)(k)) {
      ProducedWellShaped(w, w.behaviours(k).stream);
    }
  }

  /**
   * The run comes to bill a stream: while earlier candidates throw, some candidate is let through and streams to its
   * end, to a consumer that stays, with usage in its `done`. `had` counts the events before candidate k.
   */
  ghost predicate UsageReached(w: World, runs: nat -> StreamRun, n: nat, k: nat, had: nat)
    decreases n - k
  {
    && k < n && w.behaviours(k).gate.None? && !Taken(w, had, |runs(k).events|).1
    && if runs(k).failed then UsageReached(w, runs, n, k + 1, had + |runs(k).events|)
       else LastSome(DoneUsage, runs(k).events).Some?
  }

  /** A stream that completes has one `done`, last; one that throws has none. */
  ghost predicate KeepsShape(t: StreamTrace) {
    match t.outcome
    case Completed(_) => EndsInOneDone(t.yielded)
    case StreamThrew(_) => NoDone(t.yielded)
    case Abandoned => true
  }

  /** Once a `done` is out, the rest of the run cannot restore the shape. */
  lemma {:induction false} DoneIsOut(
      w: World, runs: nat -> StreamRun, call: Call, models: seq<Model>, k: nat,
      yielded: seq<StreamEvent>, last: Option<RuntimeError>)
    requires w.leavesAfter.None? && k <= |models| && forall j: nat :: WellShaped(runs(j))
    requires yielded != [] && yielded[|yielded| - 1].Done?
    ensures !KeepsShape(StreamFrom(w, runs, call, models, k, yielded, last))
  {
    var t, d := StreamFrom(w, runs, call, models, k, yielded, last), Decisive(w, call, runs, |models|, k);
    StreamFromShape(w, runs, call, models, k, yielded, last);
    assert t.yielded[|yielded| - 1].Done?;
    if Wins(w, |models|, d) {
      assert WellShaped(runs(d));
      assert t.yielded[..|t.yielded| - 1][|yielded| - 1].Done?;
    }
  }

  lemma {:induction false} EndsInWinnersDone(partial: seq<StreamEvent>, full: seq<StreamEvent>)
    requires NoDone(partial) && EndsInOneDone(full)
    ensures EndsInOneDone(partial + full)
  {
    assert (partial + full)[..|partial + full| - 1] == partial + full[..|full| - 1];
  }

  lemma {:induction false} StreamFromKeepsShape(
      w: World, runs: nat -> StreamRun, call: Call, models: seq<Model>, k: nat,
      yielded: seq<StreamEvent>, last: Option<RuntimeError>)
    requires w.leavesAfter.None? && k <= |models| && NoDone(yielded) && forall j: nat :: WellShaped(runs(j))
    ensures KeepsShape(StreamFrom(w, runs, call, models, k, yielded, last)) <==>
            CanMeter(call) || !UsageReached(w, runs, |models|, k, |yielded|)
    decreases |models| - k
  {
    if k < |models| && w.behaviours(k).gate.None? {
      var run, e := runs(k), Some(StreamFailureAt(w, call, runs, models, k));
      assert WellShaped(run);
      if run.failed {
        StreamFromKeepsShape(w, runs, call, models, k + 1, yielded + run.events, e);
      } else {
        EndsInWinnersDone(yielded, run.events);
        if FallsThrough(w, call, runs, k) {
          DoneIsOut(w, runs, call, models, k + 1, yielded + run.events, e);
        }
      }
    }
  }

  /**
   * The events of a stream are the outputs of the candidates that fell through, in order, and then the winner's. They
   * hold one `done`, last, or none when the stream throws, exactly when the feature id can be trimmed or the run never
   * comes to meter anything.
   */
  lemma {:induction false} ComposedStreamShape(w: World, call: Call, models: seq<Model>)
    requires w.leavesAfter.None?
    ensures var runs := Runs(w);
            var t, d := StreamFrom(w, runs, call, models, 0, [], None), Decisive(w, call, runs, |models|, 0);
            && (t.outcome.Completed? <==> Wins(w, |models|, d))
            && (if t.outcome.Completed? then
                  && t.outcome.modelCode == models[d].modelCode
                  && t.yielded == PartialOutputs(runs, 0, d) + runs(d).events
                else t.outcome.StreamThrew? && t.yielded == PartialOutputs(runs, 0, d))
            && (KeepsShape(t) <==> CanMeter(call) || !UsageReached(w, runs, |models|, 0, 0))
  {
    var runs := Runs(w);
    RunsWellShaped(w);
    StreamFromShape(w, runs, call, models, 0, [], None);
    StreamFromKeepsShape(w, runs, call, models, 0, [], None);
    var d := Decisive(w, call, runs, |models|, 0);
    assert [] + PartialOutputs(runs, 0, d) == PartialOutputs(runs, 0, d);
  }

  // ---- A consumer that walks away ----

  function Patient(w: World): World {
    w.(leavesAfter := None)
  }

  /** The event at which the consumer leaves, when it is the leaving kind: never before the first. */
  function Limit(w: World): nat {
    if w.leavesAfter.GetOr(1) == 0 then 1 else w.leavesAfter.GetOr(1)
  }

  ghost predicate Begins(l: Ledger, all: Ledger) {
    l.posts <= all.posts && l.attempted <= all.attempted && l.stored <= all.stored && l.errors <= all.errors
  }

  /**
   * t is the patient run p cut after the consumer's last event, if p gets that far, and else it is p. What a cut run
   * has written is what p wrote before the candidate it was cut in: nothing, for a call that can be metered.
   */
  ghost predicate CutShort(w: World, call: Call, t: StreamTrace, p: StreamTrace) {
    if w.leavesAfter.Some? && Limit(w) <= |p.yielded| then
      && t.yielded == p.yielded[..Limit(w)] && t.outcome == Abandoned
      && Begins(t.ledger, p.ledger) && t.ledger.errors == [] && (CanMeter(call) ==> t.ledger == NOTHING)
    else
      t == p && !t.outcome.Abandoned?
  }

  lemma {:induction false} PatientExtends(
      w: World, runs: nat -> StreamRun, call: Call, models: seq<Model>, k: nat,
      yielded: seq<StreamEvent>, last: Option<RuntimeError>)
    requires k <= |models|
    ensures yielded <= StreamFrom(w, runs, call, models, k, yielded, last).yielded
    decreases |models| - k
  {
    if k < |models| && w.behaviours(k).gate.None? {
      var e := Some(StreamFailureAt(w, call, runs, models, k));
      PatientExtends(w, runs, call, models, k + 1, yielded + runs(k).events, e);
    }
  }

  lemma {:induction false} TakenUpToLimit(
      w: World, had: seq<StreamEvent>, events: seq<StreamEvent>, all: seq<StreamEvent>)
    requires (w.leavesAfter.Some? ==> |had| < Limit(w)) && had + events <= all
    ensures var (count, leaves) := Taken(w, |had|, |events|);
            if w.leavesAfter.Some? && Limit(w) <= |had + events| then
              leaves && had + events[..count] == all[..Limit(w)]
            else !leaves && count == |events|
  {}

  lemma {:induction false} AfterIsCutShort(w: World, call: Call, t: StreamTrace, p: StreamTrace, spent: Ledger)
    requires CutShort(w, call, t, p) && spent.errors == [] && (CanMeter(call) ==> spent == NOTHING)
    ensures CutShort(w, call, t.After(spent), p.After(spent))
  {}

  /** One attempt before a consumer that may leave and before one that stays. */
  lemma {:induction false} AttemptCut(
      w: World, b: Behaviour, run: StreamRun, call: Call, model: Model, had: seq<StreamEvent>, a: Attempt, p: Attempt)
    requires w.leavesAfter.Some? ==> |had| < Limit(w)
    requires a == Attempted(w, b, run, call, model, had) && p == Attempted(Patient(w), b, run, call, model, had)
    ensures had <= p.yielded && p.result != Ended(Abandoned)
    ensures p.result.FellThrough? ==> p.ledger.errors == [] && (CanMeter(call) ==> p.ledger == NOTHING)
    ensures if w.leavesAfter.Some? && Limit(w) <= |p.yielded|
            then a == Attempt(p.yielded[..Limit(w)], NOTHING, Ended(Abandoned))
            else a == p
  {
    if b.gate.None? {
      TakenUpToLimit(w, had, run.events, had + run.events);
    }
  }

  lemma {:induction false} ImpatientFrom(
      w: World, runs: nat -> StreamRun, runs': nat -> StreamRun, call: Call, models: seq<Model>, k: nat,
      yielded: seq<StreamEvent>, last: Option<RuntimeError>, t: StreamTrace, p: StreamTrace)
    requires k <= |models| && (w.leavesAfter.Some? ==> |yielded| < Limit(w))
    requires forall j: nat :: runs(j) == runs'(j)
    requires t == StreamFrom(w, runs, call, models, k, yielded, last)
    requires p == StreamFrom(Patient(w), runs', call, models, k, yielded, last)
    ensures CutShort(w, call, t, p)
    decreases |models| - k
  {
    if k < |models| {
      assert runs'(k) == runs(k);
      var a := Attempted(w, w.behaviours(k), runs(k), call, models[k], yielded);
      var b := Attempted(Patient(w), w.behaviours(k), runs(k), call, models[k], yielded);
      AttemptCut(w, w.behaviours(k), runs(k), call, models[k], yielded, a, b);
      if b.result.FellThrough? {
        var e := Some(b.result.error);
        PatientExtends(Patient(w), runs', call, models, k + 1, b.yielded, e);
        if a == b {
          var t', p' := StreamFrom(w, runs, call, models, k + 1, b.yielded, e),
                        StreamFrom(Patient(w), runs', call, models, k + 1, b.yielded, e);
          ImpatientFrom(w, runs, runs', call, models, k + 1, b.yielded, e, t', p');
          AfterIsCutShort(w, call, t', p', b.ledger);
        }
      }
    }
  }

  /** Walking away cuts the stream short at that event, and nothing is then billed or logged for it. */
  lemma {:induction false} WalkingAwayCutsShort(w: World, call: Call)
    ensures CutShort(w, call, StreamRunOf(w, call), StreamRunOf(Patient(w), call))
  {
    SameResolution(w, Patient(w), call.modelCode);
    var resolved := CandidateModels(w, call.modelCode);
    if resolved.Success? {
      var models := FlatMap(Streams, resolved.value);
      ImpatientFrom(w, Runs(w), Runs(Patient(w)), call, models, 0, [], None,
                    StreamFrom(w, Runs(w), call, models, 0, [], None),
                    StreamFrom(Patient(w), Runs(Patient(w)), call, models, 0, [], None));
    }
  }

  lemma {:induction false} SameResolution(w: World, w': World, modelCode: string)
    requires SameUpstream(w, w'.(leavesAfter := w.leavesAfter))
    ensures CandidateModels(w, modelCode) == CandidateModels(w', modelCode)
    ensures forall k: nat :: Runs(w)(k) == Runs(w')(k)
  {
    if w.registry(modelCode).Success? {
      var primary := w.registry(modelCode).value;
      SameCandidates(w, w', primary, FallbackCodes(primary));
    }
    forall k: nat ensures Runs(w)(k) == Runs(w')(k) {
      assert w.behaviours(k) == w'.behaviours(k);
    }
  }

  lemma {:induction false} SameCandidates(w: World, w': World, primary: Model, codes: seq<string>)
    requires w.registry == w'.registry
    ensures FlatMap(Candidate(w, primary), codes) == FlatMap(Candidate(w', primary), codes)
  {
    if codes != [] {
      SameCandidates(w, w', primary, codes[..|codes| - 1]);
    }
  }

  // ---- Metering ----

  /** The log writes the count of the usage without its fraction. */
  predicate Logs(logged: Option<int>, count: real) {
    logged.Some? && WholePart(logged.value, count)
  }

  /** The one post that bills a call: its request, its workspace, and the whole tokens. */
  predicate Bills(post: ConsumePost, call: Call, total: real) {
    && post.idempotencyKey == call.requestId && Some(post.workspaceId) == call.workspaceId
    && post.metric == "atlas.chat" && WholePart(post.amount, total)
  }

  /** One success record with the usage, one post at most, and a billed amount exactly when it landed. */
  ghost predicate BilledFor(w: World, call: Call, l: Ledger, usage: TokenUsage) {
    && |l.attempted| == 1 && l.errors == [] && |l.posts| <= 1
    && var record := l.attempted[0];
    && record.requestId == call.requestId && record.status == Succeeded
    && Logs(record.inputTokens, usage.promptTokens)
    && Logs(record.outputTokens, usage.completionTokens)
    && Logs(record.totalTokens, usage.totalTokens)
    && (l.posts != [] <==> call.workspaceId.GetOr("") != "" && w.platformConfigured && usage.totalTokens > 0.0)
    && (l.posts != [] ==> Bills(l.posts[0], call, usage.totalTokens) && Some(l.posts[0].amount) == record.totalTokens)
    && record.billedAmount == (if l.posts != [] && w.platformAccepts then record.totalTokens else None)
    && record.billedMetricKey == (if record.billedAmount.Some? then Some("atlas.chat") else None)
    && l.stored == (if Stores(w, call, record) then [RowOf(call, record)] else [])
  }

  /** One failure record, with no tokens and no bill, beside one error record. */
  ghost predicate Unbilled(w: World, call: Call, l: Ledger) {
    && |l.attempted| == 1 && |l.errors| == 1 && l.posts == []
    && var record := l.attempted[0];
    && record.requestId == call.requestId == l.errors[0].requestId && record.status == Failed
    && record.inputTokens.None? && record.outputTokens.None? && record.totalTokens.None?
    && record.billedMetricKey.None? && record.billedAmount.None?
    && l.stored == (if Stores(w, call, record) then [RowOf(call, record)] else [])
  }

  /** The ledger of one chat: the answer billed and recorded once, or one failure and no bill. */
  ghost predicate ChatMetered(w: World, call: Call, t: ChatTrace) {
    match t.outcome
    case Answered(_, response) => BilledFor(w, call, t.ledger, response.usage)
    case ChatThrew(_) => Unbilled(w, call, t.ledger)
  }

  /** While earlier candidates fail, some candidate is let through and answers. */
  ghost predicate AnswerReached(w: World, n: nat, k: nat)
    decreases n - k
  {
    k < n && w.behaviours(k).gate.None? && (w.behaviours(k).chat.Success? || AnswerReached(w, n, k + 1))
  }

  lemma {:induction false} ChatFromMetering(
      w: World, call: Call, models: seq<Model>, k: nat, last: Option<RuntimeError>)
    requires k <= |models|
    ensures var t := ChatFrom(w, call, models, k, last);
            && (ChatMetered(w, call, t) <==> CanMeter(call) || !AnswerReached(w, |models|, k))
            && (!CanMeter(call) ==> t.outcome.ChatThrew?)
    decreases |models| - k
  {
    if k < |models| && ChatFallsThrough(w, call, k) {
      ChatFromMetering(w, call, models, k + 1, Some(FailureAt(w, call, models, k)));
    }
  }

  /**
   * A chat whose candidates resolved writes one request record, billed for its answer's usage or not at all, exactly
   * when the feature id can be trimmed or no candidate comes to answer. One whose candidates did not writes nothing.
   */
  lemma {:induction false} ChatMetering(w: World, call: Call)
    ensures var t, resolved := ChatRun(w, call), CandidateModels(w, call.modelCode);
            if resolved.Failure? then t.ledger == NOTHING
            else ChatMetered(w, call, t) <==> CanMeter(call) || !AnswerReached(w, |resolved.value|, 0)
  {
    var resolved := CandidateModels(w, call.modelCode);
    if resolved.Success? {
      ChatFromMetering(w, call, resolved.value, 0, None);
    }
  }

  /** What a composed stream owes the ledgers: the usage billed is the one its `done` carried. */
  ghost predicate StreamMetered(w: World, call: Call, t: StreamTrace) {
    match t.outcome
    case Completed(_) =>
      t.yielded != [] && t.yielded[|t.yielded| - 1].Done? &&
      (match t.yielded[|t.yielded| - 1].usage
       case Some(usage) => BilledFor(w, call, t.ledger, usage)
       case None => t.ledger == NOTHING)
    case StreamThrew(_) => Unbilled(w, call, t.ledger)
    case Abandoned => t.ledger == NOTHING
  }

  lemma {:induction false} OneDoneUsage(events: seq<StreamEvent>)
    requires EndsInOneDone(events)
    ensures LastSome(DoneUsage, events) == events[|events| - 1].usage
  {
    var init := events[..|events| - 1];
    NoDoneUsage(init);
    assert events == init + [events[|events| - 1]];
  }

  lemma {:induction false} NoDoneUsage(events: seq<StreamEvent>)
    requires NoDone(events)
    ensures LastSome(DoneUsage, events) == None
  {
    if events != [] {
      NoDoneUsage(events[..|events| - 1]);
    }
  }

  /** A stream that was billed, could not be metered and went on is not metered as it should be. */
  lemma {:induction false} BilledTooEarly(w: World, call: Call, rest: StreamTrace, model: Model, usage: TokenUsage)
    ensures (rest.outcome.Completed? ==> EndsUnmetered(rest)) ==>
            !StreamMetered(w, call, rest.After(UsageLedger(w, call, model, usage)))
  {
    assert rest.After(UsageLedger(w, call, model, usage)).ledger.attempted[0].status == Succeeded;
  }

  /** The last event of a completed stream is a `done` without usage. */
  ghost predicate EndsUnmetered(t: StreamTrace) {
    t.yielded != [] && t.yielded[|t.yielded| - 1].Done? && t.yielded[|t.yielded| - 1].usage.None?
  }

  /** What one attempt owes the ledgers: an end pays for itself, and a fall has written nothing or billed too early. */
  lemma {:induction false} AttemptMetered(
      w: World, b: Behaviour, run: StreamRun, call: Call, model: Model, had: seq<StreamEvent>, a: Attempt)
    requires WellShaped(run) && a == Attempted(w, b, run, call, model, had)
    ensures a.result.Ended? ==>
              var t := StreamTrace(a.yielded, a.ledger, a.result.outcome);
              StreamMetered(w, call, t) && (!CanMeter(call) && t.outcome.Completed? ==> EndsUnmetered(t))
    ensures a.result.FellThrough? && run.failed ==> a.ledger == NOTHING
    ensures a.result.FellThrough? && !run.failed ==>
              && !CanMeter(call) && LastSome(DoneUsage, run.events).Some?
              && a.ledger == UsageLedger(w, call, model, LastSome(DoneUsage, run.events).value)
    ensures a.result.FellThrough? ==>
              b.gate.None? && !Taken(w, |had|, |run.events|).1 && a.yielded == had + run.events
    ensures a.result.Ended? && !CanMeter(call) ==>
              b.gate.Some? || Taken(w, |had|, |run.events|).1 || (!run.failed && LastSome(DoneUsage, run.events).None?)
  {
    if !run.failed {
      OneDoneUsage(run.events);
      assert had + run.events != [] && (had + run.events)[|had + run.events| - 1] == run.events[|run.events| - 1];
    }
  }

  lemma {:induction false} StreamFromMetering(
      w: World, runs: nat -> StreamRun, call: Call, models: seq<Model>, k: nat,
      yielded: seq<StreamEvent>, last: Option<RuntimeError>, t: StreamTrace)
    requires k <= |models| && forall j: nat :: WellShaped(runs(j))
    requires t == StreamFrom(w, runs, call, models, k, yielded, last)
    ensures StreamMetered(w, call, t) <==> CanMeter(call) || !UsageReached(w, runs, |models|, k, |yielded|)
    ensures !CanMeter(call) && t.outcome.Completed? ==> EndsUnmetered(t)
    decreases |models| - k
  {
    if k < |models| {
      var run := runs(k);
      var a := Attempted(w, w.behaviours(k), run, call, models[k], yielded);
      AttemptMetered(w, w.behaviours(k), run, call, models[k], yielded, a);
      if a.result.FellThrough? {
        var rest := StreamFrom(w, runs, call, models, k + 1, a.yielded, Some(a.result.error));
        StreamFromMetering(w, runs, call, models, k + 1, a.yielded, Some(a.result.error), rest);
        if run.failed {
          PlusAssociates(rest.ledger, NOTHING, NOTHING);
        } else {
          BilledTooEarly(w, call, rest, models[k], LastSome(DoneUsage, run.events).value);
        }
      }
    }
  }

  /**
   * A stream bills at most once, for the usage of the `done` that was yielded, and never for a failure, exactly when
   * the feature id can be trimmed or the run never comes to meter anything.
   */
  lemma {:induction false} StreamMetering(w: World, call: Call, models: seq<Model>)
    requires CandidateModels(w, call.modelCode).Success?
    requires models == FlatMap(Streams, CandidateModels(w, call.modelCode).value)
    ensures var t := StreamRunOf(w, call);
            if models == [] then t.ledger == NOTHING
            else StreamMetered(w, call, t) <==> CanMeter(call) || !UsageReached(w, Runs(w), |models|, 0, 0)
  {
    if models != [] {
      RunsWellShaped(w);
      StreamFromMetering(w, Runs(w), call, models, 0, [], None, StreamRunOf(w, call));
    }
  }

  // ---- When metering throws ----

  /** Every post of a run carries the request id, so that the platform can tell that two bill one request. */
  ghost predicate Keyed(call: Call, l: Ledger) {
    forall p :: p in l.posts ==> p.idempotencyKey == call.requestId && Some(p.workspaceId) == call.workspaceId
  }

  lemma {:induction false} ChatFromKeyed(
      w: World, call: Call, models: seq<Model>, k: nat, last: Option<RuntimeError>)
    requires k <= |models|
    ensures Keyed(call, ChatFrom(w, call, models, k, last).ledger)
    decreases |models| - k
  {
    if k < |models| && ChatFallsThrough(w, call, k) {
      ChatFromKeyed(w, call, models, k + 1, Some(FailureAt(w, call, models, k)));
    }
  }

  lemma {:induction false} AttemptKeyed(
      w: World, b: Behaviour, run: StreamRun, call: Call, model: Model, had: seq<StreamEvent>)
    ensures Keyed(call, Attempted(w, b, run, call, model, had).ledger)
  {}

  lemma {:induction false} StreamFromKeyed(
      w: World, runs: nat -> StreamRun, call: Call, models: seq<Model>, k: nat,
      yielded: seq<StreamEvent>, last: Option<RuntimeError>)
    requires k <= |models|
    ensures Keyed(call, StreamFrom(w, runs, call, models, k, yielded, last).ledger)
    decreases |models| - k
  {
    if k < |models| {
      var a := Attempted(w, w.behaviours(k), runs(k), call, models[k], yielded);
      AttemptKeyed(w, w.behaviours(k), runs(k), call, models[k], yielded);
      if a.result.FellThrough? {
        StreamFromKeyed(w, runs, call, models, k + 1, a.yielded, Some(a.result.error));
      }
    }
  }

  /** However often a run posts, every post is for the same request and workspace. */
  lemma {:induction false} PostsShareTheRequest(w: World, call: Call)
    ensures Keyed(call, ChatRun(w, call).ledger) && Keyed(call, StreamRunOf(w, call).ledger)
  {
    var resolved := CandidateModels(w, call.modelCode);
    if resolved.Success? {
      ChatFromKeyed(w, call, resolved.value, 0, None);
      StreamFromKeyed(w, Runs(w), call, FlatMap(Streams, resolved.value), 0, [], None);
    }
  }

  const ONE_TOKEN := Claude.MessageStart(Some(Claude.StartUsage(Some(1.0), Some(0.0))))

  lemma {:induction false} OneTokenStream(parse: Claude.JsonParser)
    ensures Claude.Decode(parse, [Claude.Payload(ONE_TOKEN)], false).events ==
            [Done(Some(TokenUsage(1.0, 0.0, 1.0)), None)]
    ensures Claude.Decode(parse, [], false).events == [Done(None, None)]
  {
    var frames := [Claude.Payload(ONE_TOKEN)];
    assert frames == [] + [frames[0]] && frames[1..] == [];
    LastSomeSnoc(Claude.InputReport, [], frames[0]);
    LastSomeSnoc(Claude.OutputReport, [], frames[0]);
    LastSomeSnoc(Claude.MappedStop, [], frames[0]);
    assert Claude.FrameEvents(parse, [], frames[0]) == [] && Claude.Act([], Claude.ActionOf(frames[0])) == [];
    Claude.EventsUnfold(parse, [], frames);
    assert Claude.EventsFrom(parse, [], frames) == [] && Claude.OpenAfter([], frames) == [];
    assert Claude.CallEvents(Claude.Drained(parse, [])) == [];
  }

  /** A feature id that cannot be trimmed: two candidates stream to their end, and the caller is sent `done` twice. */
  lemma {:induction false} TwoDones(w: World, call: Call, primary: Model, fallback: Model)
    requires !CanMeter(call) && w.leavesAfter.None?
    requires w.behaviours(0).gate.None? && w.behaviours(1).gate.None?
    requires w.behaviours(0).stream == ClaudeBody([Claude.Payload(ONE_TOKEN)], false, OtherException)
    requires w.behaviours(1).stream == ClaudeBody([], false, OtherException)
    ensures var t := StreamFrom(w, Runs(w), call, [primary, fallback], 0, [], None);
            && t.outcome == Completed(fallback.modelCode)
            && t.yielded == [Done(Some(TokenUsage(1.0, 0.0, 1.0)), None), Done(None, None)]
            && t.ledger == UsageLedger(w, call, primary, TokenUsage(1.0, 0.0, 1.0))
  {
    var runs, models, usage := Runs(w), [primary, fallback], TokenUsage(1.0, 0.0, 1.0);
    OneTokenStream(w.parse);
    assert runs(0) == StreamRun([Done(Some(usage), None)], false) && runs(1) == StreamRun([Done(None, None)], false);
    assert runs(0).events == [] + [Done(Some(usage), None)] && runs(1).events == [] + [Done(None, None)];
    LastSomeSnoc(DoneUsage, [], Done(Some(usage), None));
    LastSomeSnoc(DoneUsage, [], Done(None, None));
    PlusAssociates(UsageLedger(w, call, primary, usage), NOTHING, NOTHING);
    var e := Some(StreamFailureAt(w, call, runs, models, 0));
    assert StreamFrom(w, runs, call, models, 1, [Done(Some(usage), None)], e) ==
           StreamTrace([Done(Some(usage), None), Done(None, None)], NOTHING, Completed(fallback.modelCode));
  }

  /**
   * A feature id that cannot be trimmed: every candidate that answers is billed, and the caller is told that all
   * failed.
   */
  lemma {:induction false} TwoPosts(
      w: World, call: Call, primary: Model, fallback: Model, a: ProviderChatResponse, b: ProviderChatResponse)
    requires !CanMeter(call)
    requires w.behaviours(0).gate.None? && w.behaviours(0).chat == Success(a)
    requires w.behaviours(1).gate.None? && w.behaviours(1).chat == Success(b)
    requires Posts(w, call, a.usage.totalTokens) && Posts(w, call, b.usage.totalTokens)
    ensures var t := ChatFrom(w, call, [primary, fallback], 0, None);
            && t.outcome == ChatThrew(ModelError(OtherException, call, fallback))
            && |t.ledger.posts| == 2 && |t.ledger.attempted| == 3 && t.ledger.stored == []
            && Bills(t.ledger.posts[0], call, a.usage.totalTokens)
            && Bills(t.ledger.posts[1], call, b.usage.totalTokens)
  {
    var models := [primary, fallback];
    var e, e' := Some(FailureAt(w, call, models, 0)), Some(FailureAt(w, call, models, 1));
    var t1, t2 := ChatFrom(w, call, models, 1, e), ChatFrom(w, call, models, 2, e');
    assert t1 == t2.After(UsageLedger(w, call, fallback, b.usage));
    assert ChatFrom(w, call, models, 0, None) == t1.After(UsageLedger(w, call, primary, a.usage));
  }

  // ---- Accounting cannot be felt, and errors can be traced ----

  lemma {:induction false} ChatFromBlind(
      w: World, w': World, call: Call, models: seq<Model>, k: nat, last: Option<RuntimeError>)
    requires SameUpstream(w, w') && k <= |models|
    ensures ChatFrom(w, call, models, k, last).outcome == ChatFrom(w', call, models, k, last).outcome
    decreases |models| - k
  {
    if k < |models| {
      ChatFromBlind(w, w', call, models, k + 1, Some(FailureAt(w, call, models, k)));
    }
  }

  lemma {:induction false} AttemptBlind(
      w: World, w': World, b: Behaviour, run: StreamRun, call: Call, model: Model, had: seq<StreamEvent>)
    requires w.leavesAfter == w'.leavesAfter
    ensures var a, a' := Attempted(w, b, run, call, model, had), Attempted(w', b, run, call, model, had);
            a.yielded == a'.yielded && a.result == a'.result
  {}

  lemma {:induction false} StreamFromBlind(
      w: World, w': World, runs: nat -> StreamRun, runs': nat -> StreamRun, call: Call, models: seq<Model>, k: nat,
      yielded: seq<StreamEvent>, last: Option<RuntimeError>)
    requires SameUpstream(w, w') && k <= |models| && forall j: nat :: runs(j) == runs'(j)
    ensures var t := StreamFrom(w, runs, call, models, k, yielded, last);
            var t' := StreamFrom(w', runs', call, models, k, yielded, last);
            t.outcome == t'.outcome && t.yielded == t'.yielded
    decreases |models| - k
  {
    if k < |models| {
      assert runs(k) == runs'(k);
      var a := Attempted(w, w.behaviours(k), runs(k), call, models[k], yielded);
      AttemptBlind(w, w', w.behaviours(k), runs(k), call, models[k], yielded);
      if a.result.FellThrough? {
        StreamFromBlind(w, w', runs, runs', call, models, k + 1, a.yielded, Some(a.result.error));
      }
    }
  }

  /** Whether the platform bills and whether the database stores changes nothing that the caller sees. */
  lemma {:induction false} AccountingIsInvisible(w: World, w': World, call: Call)
    requires SameUpstream(w, w')
    ensures ChatRun(w, call).outcome == ChatRun(w', call).outcome
    ensures StreamRunOf(w, call).outcome == StreamRunOf(w', call).outcome
    ensures StreamRunOf(w, call).yielded == StreamRunOf(w', call).yielded
  {
    SameResolution(w, w', call.modelCode);
    var resolved := CandidateModels(w, call.modelCode);
    if resolved.Success? {
      ChatFromBlind(w, w', call, resolved.value, 0, None);
      StreamFromBlind(w, w', Runs(w), Runs(w'), call, FlatMap(Streams, resolved.value), 0, [], None);
    }
  }

  ghost predicate Traceable(e: RuntimeError) {
    e.requestId.GetOr("") != ""
  }

  lemma {:induction false} ChatFromTraceable(
      w: World, call: Call, models: seq<Model>, k: nat, last: Option<RuntimeError>)
    requires call.requestId != "" && k <= |models| && (last.Some? ==> Traceable(last.value))
    ensures var o := ChatFrom(w, call, models, k, last).outcome; o.ChatThrew? ==> Traceable(o.error)
    decreases |models| - k
  {
    if k < |models| {
      ChatFromTraceable(w, call, models, k + 1, Some(FailureAt(w, call, models, k)));
    }
  }

  lemma {:induction false} StreamFromTraceable(
      w: World, runs: nat -> StreamRun, call: Call, models: seq<Model>, k: nat,
      yielded: seq<StreamEvent>, last: Option<RuntimeError>)
    requires call.requestId != "" && k <= |models| && (last.Some? ==> Traceable(last.value))
    ensures var o := StreamFrom(w, runs, call, models, k, yielded, last).outcome; o.StreamThrew? ==> Traceable(o.error)
    decreases |models| - k
  {
    if k < |models| && w.behaviours(k).gate.None? {
      var e := Some(StreamFailureAt(w, call, runs, models, k));
      StreamFromTraceable(w, runs, call, models, k + 1, yielded + runs(k).events, e);
    }
  }

  /** Every error that leaves the service names the request it belongs to. */
  lemma {:induction false} ErrorsAreTraceable(w: World, call: Call)
    requires call.requestId != ""
    ensures var o := ChatRun(w, call).outcome; o.ChatThrew? ==> Traceable(o.error)
    ensures var o := StreamRunOf(w, call).outcome; o.StreamThrew? ==> Traceable(o.error)
  {
    var resolved := CandidateModels(w, call.modelCode);
    if resolved.Success? {
      ChatFromTraceable(w, call, resolved.value, 0, None);
      StreamFromTraceable(w, Runs(w), call, FlatMap(Streams, resolved.value), 0, [], None);
    }
  }

  /** The primary comes first, and every later candidate is another model that the registry serves. */
  lemma {:induction false} CandidatesAreRoutable(w: World, modelCode: string)
    requires forall c :: w.registry(c).Success? ==> w.registry(c).value.modelCode == c
    ensures match CandidateModels(w, modelCode)
            case Failure(thrown) => w.registry(modelCode) == Failure(thrown)
            case Success(models) =>
              && w.registry(modelCode) == Success(models[0])
              && forall k :: 0 < k < |models| ==>
                   models[k].modelCode != modelCode && w.registry(models[k].modelCode) == Success(models[k])
  {
    if w.registry(modelCode).Success? {
      var primary := w.registry(modelCode).value;
      var codes, models := FallbackCodes(primary), CandidateModels(w, modelCode).value;
      forall k | 0 < k < |models|
        ensures models[k].modelCode != modelCode && w.registry(models[k].modelCode) == Success(models[k])
      {
        assert models[k] == FlatMap(Candidate(w, primary), codes)[k - 1];
        FlatMapMember(Candidate(w, primary), codes, models[k]);
      }
    }
  }
}
