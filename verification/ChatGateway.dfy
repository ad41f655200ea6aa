/**
 * Candidate fallback and accounting (service/src/runtime/runtime.service.ts, with the consume call of
 * service/src/platform/platform-entitlement.client.ts, the log of service/src/reqlog/request-log.service.ts and the
 * metering of service/src/metering/metering.service.ts).
 */
module ChatGateway {
  import opened Columns
  import opened Json
  import opened RuntimeTypes
  import opened Sequences
  import opened Wrappers
  import Claude = ClaudeStream
  import OpenAi = OpenAiStream
  import Trimming = Text

  type JsonParser = string -> Option<Json>

  datatype Model = Model(modelCode: string, provider: string, supportsStreaming: bool, config: map<string, Json>)

  /** The fields of a ModelRuntimeException that callers branch on. */
  datatype RuntimeError =
    RuntimeError(code: string, requestId: Option<string>, modelCode: Option<string>, provider: Option<string>)

  datatype Thrown = RuntimeException(error: RuntimeError) | OtherException

  /**
   * One accepted request, with the workspace its token proves. The last three fields reach the service as they were
   * sent: nothing validates them.
   */
  datatype Call = Call(
    requestId: string, modelCode: string, workspaceId: Option<string>,
    featureId: Option<Json>, usageType: Option<Json>, businessId: Option<Json>)

  /** `value?.trim()` does not throw: the value is absent, null or a string. */
  predicate Trims(value: Option<Json>) {
    value.None? || value.value.Null? || value.value.Str?
  }

  /** The metering step trims the feature id, and nothing catches it there. */
  predicate CanMeter(call: Call) {
    Trims(call.featureId)
  }

  /** A text as the request log writes it: trimmed, cut to its column, and null when blank. */
  function Clamped(value: string, max: nat): Option<string> {
    var trimmed := Trimming.Trim(value);
    if trimmed == "" then None else Some(if |trimmed| <= max then trimmed else trimmed[..max])
  }

  function ClampedField(value: Option<Json>, max: nat): Option<string> {
    if value.Some? && value.value.Str? then Clamped(value.value.s, max) else None
  }

  function LoggedRequestId(requestId: string): string {
    Clamped(requestId, 128).GetOr(requestId)
  }

  /** The values that the check constraint of the log admits. */
  const USAGE_TYPES := {"normal", "retry", "test"}

  /**
   * What the log needs of a call: three fields of the body that can be trimmed, a usage type the column admits, and no
   * NUL in what is left of the texts. It swallows whatever goes wrong with them.
   */
  predicate CanLog(call: Call) {
    && Trims(call.featureId) && Trims(call.usageType) && Trims(call.businessId)
    && (var usageType := ClampedField(call.usageType, 16); usageType.None? || usageType.value in USAGE_TYPES)
    && !HasNul(LoggedRequestId(call.requestId)) && !HasNul(ClampedField(call.businessId, 128).GetOr(""))
  }

  datatype StreamAttempt =
    | Unopened(thrown: Thrown)
    | OpenAiBody(openAiFrames: seq<OpenAi.Frame>, broken: bool, thrown: Thrown)
    | ClaudeBody(claudeFrames: seq<Claude.Frame>, broken: bool, thrown: Thrown)

  /** How the outside world treats one candidate: the quota gate, then the provider. */
  datatype Behaviour =
    Behaviour(gate: Option<Thrown>, chat: Result<ProviderChatResponse, Thrown>, stream: StreamAttempt)

  /**
   * `registry` is what reading a model by its code gives; `behaviours` is indexed by attempt; `leavesAfter` is the
   * event count at which the consumer walks away.
   */
  datatype World = World(
    registry: string -> Result<Model, Thrown>,
    behaviours: nat -> Behaviour,
    parse: JsonParser,
    platformConfigured: bool,
    platformAccepts: bool,
    storageUp: bool,
    leavesAfter: Option<nat>)

  // ---- The ledgers ----

  datatype ConsumePost = ConsumePost(workspaceId: string, metric: string, amount: int, idempotencyKey: string)

  datatype Status = Succeeded | Failed

  datatype RequestRecord = RequestRecord(
    requestId: string, status: Status, modelCode: Option<string>, providerCode: Option<string>,
    inputTokens: Option<int>, outputTokens: Option<int>, totalTokens: Option<int>,
    billedMetricKey: Option<string>, billedAmount: Option<int>)

  /** The row that becomes of a record. */
  datatype RequestRow = RequestRow(
    requestId: string, status: Status, modelCode: Option<string>, providerCode: Option<string>,
    inputTokens: Option<int>, outputTokens: Option<int>, totalTokens: Option<int>,
    usageType: Option<string>, businessId: Option<string>,
    billedMetricKey: Option<string>, billedAmount: Option<int>)

  datatype ErrorRecord =
    ErrorRecord(requestId: string, providerCode: Option<string>, modelCode: Option<string>, errorCode: Option<string>)

  /** What left the service: consume posts, the records and errors it tried to log, and the rows the database took. */
  datatype Ledger = Ledger(
    posts: seq<ConsumePost>, attempted: seq<RequestRecord>, stored: seq<RequestRow>, errors: seq<ErrorRecord>)
  {
    function Plus(l: Ledger): Ledger {
      Ledger(posts + l.posts, attempted + l.attempted, stored + l.stored, errors + l.errors)
    }
  }

  const NOTHING := Ledger([], [], [], [])

  lemma {:induction false} PlusAssociates(a: Ledger, b: Ledger, c: Ledger)
    ensures a.Plus(b).Plus(c) == a.Plus(b.Plus(c))
    ensures NOTHING.Plus(a) == a && a.Plus(NOTHING) == a
  {
    assert (a.posts + b.posts) + c.posts == a.posts + (b.posts + c.posts);
    assert (a.attempted + b.attempted) + c.attempted == a.attempted + (b.attempted + c.attempted);
    assert (a.stored + b.stored) + c.stored == a.stored + (b.stored + c.stored);
    assert (a.errors + b.errors) + c.errors == a.errors + (b.errors + c.errors);
  }

  /** n is a without its fraction. */
  predicate WholePart(n: int, a: real) {
    if a >= 0.0 then n as real <= a < n as real + 1.0 else n as real - 1.0 < a <= n as real
  }

  /** Math.trunc. */
  function Trunc(x: real): (n: int)
    ensures WholePart(n, x)
  {
    if x < 0.0 then -((-x).Floor) else x.Floor
  }

  /** Whether consume reaches the platform at all. */
  predicate Posts(w: World, call: Call, amount: real) {
    call.workspaceId.GetOr("") != "" && w.platformConfigured && amount > 0.0
  }

  function SuccessRecord(call: Call, model: Model, usage: TokenUsage, billed: bool): RequestRecord {
    RequestRecord(call.requestId, Succeeded, Some(model.modelCode), Some(model.provider),
                  Some(Trunc(usage.promptTokens)), Some(Trunc(usage.completionTokens)), Some(Trunc(usage.totalTokens)),
                  if billed then Some("atlas.chat") else None, if billed then Some(Trunc(usage.totalTokens)) else None)
  }

  function FailureRecord(call: Call, modelCode: string, provider: Option<string>): RequestRecord {
    RequestRecord(call.requestId, Failed, Some(modelCode), provider, None, None, None, None, None)
  }

  function ClampedCode(code: Option<string>, max: nat): Option<string> {
    if code.Some? then Clamped(code.value, max) else None
  }

  function RowOf(call: Call, r: RequestRecord): RequestRow {
    RequestRow(
      LoggedRequestId(r.requestId), r.status, ClampedCode(r.modelCode, 128), ClampedCode(r.providerCode, 64),
      r.inputTokens, r.outputTokens, r.totalTokens,
      ClampedField(call.usageType, 16), ClampedField(call.businessId, 128), r.billedMetricKey, r.billedAmount)
  }

  /** A bigint column takes it. */
  predicate FitsBigint(count: Option<int>) {
    count.Some? ==> -0x8000_0000_0000_0000 <= count.value < 0x8000_0000_0000_0000
  }

  /** What the log needs of the record itself. */
  predicate RecordFits(r: RequestRecord) {
    && !HasNul(ClampedCode(r.modelCode, 128).GetOr("")) && !HasNul(ClampedCode(r.providerCode, 64).GetOr(""))
    && FitsBigint(r.inputTokens) && FitsBigint(r.outputTokens) && FitsBigint(r.totalTokens)
    && FitsBigint(r.billedAmount)
  }

  /** The database takes the row of this record. */
  predicate Stores(w: World, call: Call, record: RequestRecord) {
    w.storageUp && CanLog(call) && RecordFits(record)
  }

  function Recorded(w: World, call: Call, record: RequestRecord): Ledger {
    Ledger([], [record], if Stores(w, call, record) then [RowOf(call, record)] else [], [])
  }

  function UsageLedger(w: World, call: Call, model: Model, usage: TokenUsage): Ledger {
    var posted := Posts(w, call, usage.totalTokens);
    var post := if posted then
      [ConsumePost(call.workspaceId.GetOr(""), "atlas.chat", Trunc(usage.totalTokens), call.requestId)] else [];
    Recorded(w, call, SuccessRecord(call, model, usage, posted && w.platformAccepts)).(posts := post)
  }

  function ErrorCode(t: Thrown): Option<string> {
    if t.RuntimeException? then Some(t.error.code) else None
  }

  function FailureLedger(w: World, call: Call, modelCode: string, provider: Option<string>, thrown: Thrown): Ledger {
    Recorded(w, call, FailureRecord(call, modelCode, provider))
      .(errors := [ErrorRecord(call.requestId, provider, Some(modelCode), ErrorCode(thrown))])
  }

  // ---- Errors ----

  function Enrich(t: Thrown, requestId: string, modelCode: Option<string>, provider: Option<string>): RuntimeError {
    match t
    case OtherException => RuntimeError("PROVIDER_UNAVAILABLE", Some(requestId), modelCode, provider)
    case RuntimeException(e) =>
      if e.requestId.GetOr("") != "" then e
      else RuntimeError(e.code, Some(requestId), e.modelCode.OrElse(modelCode), e.provider.OrElse(provider))
  }

  function ModelError(t: Thrown, call: Call, model: Model): RuntimeError {
    Enrich(t, call.requestId, Some(model.modelCode), Some(model.provider))
  }

  // ---- Candidates ----

  function StringsOf(v: Json): seq<string> {
    if v.Str? && !Trimming.IsBlank(v.s) then [Trimming.Trim(v.s)] else []
  }

  function FallbackCodes(model: Model): seq<string> {
    match Field(model.config, "fallbackModelCodes")
    case Some(Array(items)) => FlatMap(StringsOf, items)
    case _ => []
  }

  /** A fallback candidate: another code, and one the registry can serve. */
  function Candidate(w: World, primary: Model): string -> seq<Model> {
    code => if code != primary.modelCode && w.registry(code).Success? then [w.registry(code).value] else []
  }

  function CandidateModels(w: World, modelCode: string): Result<seq<Model>, Thrown> {
    match w.registry(modelCode)
    case Success(primary) => Success([primary] + FlatMap(Candidate(w, primary), FallbackCodes(primary)))
    case Failure(thrown) => Failure(thrown)
  }

  function Streams(m: Model): seq<Model> {
    if m.supportsStreaming then [m] else []
  }

  // ---- Runs as functions of the world ----

  datatype ChatOutcome = Answered(modelCode: string, response: ProviderChatResponse) | ChatThrew(error: RuntimeError)

  datatype ChatTrace = ChatTrace(ledger: Ledger, outcome: ChatOutcome) {
    function After(spent: Ledger): ChatTrace {
      this.(ledger := spent.Plus(ledger))
    }
  }

  function LastProvider(models: seq<Model>): Option<string> {
    if models == [] then None else Some(models[|models| - 1].provider)
  }

  function Exhausted(call: Call, last: Option<RuntimeError>): RuntimeError {
    last.GetOr(RuntimeError("PROVIDER_UNAVAILABLE", Some(call.requestId), Some(call.modelCode), None))
  }

  function ExhaustedLedger(w: World, call: Call, models: seq<Model>, last: Option<RuntimeError>): Ledger {
    FailureLedger(w, call, call.modelCode, LastProvider(models),
      if last.Some? then RuntimeException(last.value) else OtherException)
  }

  /** The rest of a chat run, from candidate k on. */
  function ChatFrom(w: World, call: Call, models: seq<Model>, k: nat, last: Option<RuntimeError>): ChatTrace
    requires k <= |models|
    decreases |models| - k
  {
    if k == |models| then ChatTrace(ExhaustedLedger(w, call, models, last), ChatThrew(Exhausted(call, last)))
    else
      var model, b := models[k], w.behaviours(k);
      match b.gate
      case Some(denial) =>
        ChatTrace(FailureLedger(w, call, model.modelCode, Some(model.provider), denial),
          ChatThrew(ModelError(denial, call, model)))
      case None =>
        match b.chat
        case Success(response) =>
          var spent := UsageLedger(w, call, model, response.usage);
          if CanMeter(call) then ChatTrace(spent, Answered(model.modelCode, response))
          else ChatFrom(w, call, models, k + 1, Some(ModelError(OtherException, call, model))).After(spent)
        case Failure(thrown) => ChatFrom(w, call, models, k + 1, Some(ModelError(thrown, call, model)))
  }

  function ChatRun(w: World, call: Call): ChatTrace {
    match CandidateModels(w, call.modelCode)
    case Failure(thrown) => ChatTrace(NOTHING, ChatThrew(Enrich(thrown, call.requestId, Some(call.modelCode), None)))
    case Success(models) => ChatFrom(w, call, models, 0, None)
  }

  /** One provider stream: the decoder's run over the frames it was sent. */
  ghost function Produced(w: World, s: StreamAttempt): StreamRun {
    match s
    case Unopened(_) => StreamRun([], true)
    case OpenAiBody(frames, broken, _) => OpenAi.Decode(w.parse, frames, broken)
    case ClaudeBody(frames, broken, _) => Claude.Decode(w.parse, frames, broken)
  }

  /** The stream each attempt would produce. */
  ghost function Runs(w: World): nat -> StreamRun {
    (k: nat) => Produced(w, w.behaviours(k).stream)
  }

  datatype StreamOutcome = Completed(modelCode: string) | StreamThrew(error: RuntimeError) | Abandoned

  datatype StreamTrace = StreamTrace(yielded: seq<StreamEvent>, ledger: Ledger, outcome: StreamOutcome) {
    function After(spent: Ledger): StreamTrace {
      this.(ledger := spent.Plus(ledger))
    }
  }

  function DoneUsage(e: StreamEvent): Option<TokenUsage> {
    if e.Done? then e.usage else None
  }

  /** How many more events the consumer takes, and whether it then leaves. */
  function Taken(w: World, had: nat, offered: nat): (r: (nat, bool))
    ensures r.0 <= offered
  {
    if w.leavesAfter.None? || offered == 0 || (had + offered < w.leavesAfter.value) then (offered, false)
    else if w.leavesAfter.value <= had then (1, true)
    else (w.leavesAfter.value - had, true)
  }

  lemma {:induction false} LeavesAt(w: World, had: nat, offered: nat, n: nat)
    requires n < offered && w.leavesAfter.Some? && w.leavesAfter.value <= had + n + 1
    requires n > 0 ==> had + n < w.leavesAfter.value
    ensures Taken(w, had, offered) == (n + 1, true)
  {}

  datatype Fate = Ended(outcome: StreamOutcome) | FellThrough(error: RuntimeError)

  /** What one candidate adds to a stream: the events so far, what was written, and whether the run ends with it. */
  datatype Attempt = Attempt(yielded: seq<StreamEvent>, ledger: Ledger, result: Fate)

  /** Candidate with behaviour b, whose provider would produce run, after the events of had. */
  ghost function Attempted(
      w: World, b: Behaviour, run: StreamRun, call: Call, model: Model, had: seq<StreamEvent>): Attempt
  {
    match b.gate
    case Some(denial) =>
      Attempt(had, FailureLedger(w, call, model.modelCode, Some(model.provider), denial),
              Ended(StreamThrew(ModelError(denial, call, model))))
    case None =>
      var (count, leaves) := Taken(w, |had|, |run.events|);
      if leaves then Attempt(had + run.events[..count], NOTHING, Ended(Abandoned))
      else if run.failed then Attempt(had + run.events, NOTHING, FellThrough(ModelError(b.stream.thrown, call, model)))
      else
        match LastSome(DoneUsage, run.events)
        case None => Attempt(had + run.events, NOTHING, Ended(Completed(model.modelCode)))
        case Some(usage) =>
          Attempt(had + run.events, UsageLedger(w, call, model, usage),
                  if CanMeter(call) then Ended(Completed(model.modelCode))
                  else FellThrough(ModelError(OtherException, call, model)))
  }

  /** The rest of a stream run over the given provider streams, from candidate k on. */
  ghost function StreamFrom(w: World, runs: nat -> StreamRun, call: Call, models: seq<Model>, k: nat,
                            yielded: seq<StreamEvent>, last: Option<RuntimeError>): StreamTrace
    requires k <= |models|
    decreases |models| - k
  {
    if k == |models| then StreamTrace(yielded, ExhaustedLedger(w, call, models, last),
      StreamThrew(Exhausted(call, last)))
    else
      var a := Attempted(w, w.behaviours(k), runs(k), call, models[k], yielded);
      match a.result
      case Ended(outcome) => StreamTrace(a.yielded, a.ledger, outcome)
      case FellThrough(error) => StreamFrom(w, runs, call, models, k + 1, a.yielded, Some(error)).After(a.ledger)
  }

  ghost function StreamRunOf(w: World, call: Call): StreamTrace {
    match CandidateModels(w, call.modelCode)
    case Failure(thrown) => StreamTrace([], NOTHING,
      StreamThrew(Enrich(thrown, call.requestId, Some(call.modelCode), None)))
    case Success(candidates) =>
      var models := FlatMap(Streams, candidates);
      if models == [] then
        StreamTrace([], NOTHING, StreamThrew(RuntimeError("MODEL_NOT_ROUTABLE", Some(call.requestId),
          Some(call.modelCode), None)))
      else StreamFrom(w, Runs(w), call, models, 0, [], None)
  }

  // ---- The service ----

  class ModelRuntimeService {
    var inFlight: int
    var ledger: Ledger

    constructor ()
      ensures inFlight == 0 && ledger == NOTHING
    {
      inFlight, ledger := 0, NOTHING;
    }

    /** Total: every failure is answered with false. */
    method Consume(w: World, call: Call, amount: real) returns (billed: bool)
      modifies this`ledger
      ensures billed == (Posts(w, call, amount) && w.platformAccepts)
      ensures ledger == old(ledger).(posts := old(ledger).posts +
                if Posts(w, call, amount)
                then [ConsumePost(call.workspaceId.GetOr(""), "atlas.chat", Trunc(amount), call.requestId)] else [])
      ensures var posts, sent := ledger.posts, old(ledger).posts;
              if call.workspaceId.GetOr("") != "" && w.platformConfigured && amount > 0.0 then
                && |posts| == |sent| + 1 && posts[..|sent|] == sent
                && WholePart(posts[|sent|].amount, amount) && posts[|sent|].metric == "atlas.chat"
                && posts[|sent|].idempotencyKey == call.requestId
                && Some(posts[|sent|].workspaceId) == call.workspaceId
              else posts == sent && !billed
    {
      if call.workspaceId.GetOr("") == "" || !w.platformConfigured || amount <= 0.0 {
        return false;
      }
      ledger := ledger.(posts :=
        ledger.posts + [ConsumePost(call.workspaceId.value, "atlas.chat", Trunc(amount), call.requestId)]);
      billed := w.platformAccepts;
    }

    /** Total: a field that cannot be trimmed, and a row that the database refuses, are swallowed. */
    method Record(w: World, call: Call, record: RequestRecord)
      modifies this`ledger
      ensures ledger == old(ledger).Plus(Recorded(w, call, record))
    {
      ledger := ledger.(attempted := ledger.attempted + [record]);
      if w.storageUp && CanLog(call) && RecordFits(record) {
        ledger := ledger.(stored := ledger.stored + [RowOf(call, record)]);
      }
    }

    /** Bill, log, and then meter; the last step stores nothing, and throws when it cannot trim the feature id. */
    method RecordUsage(w: World, call: Call, model: Model, usage: TokenUsage) returns (threw: bool)
      modifies this`ledger
      ensures ledger == old(ledger).Plus(UsageLedger(w, call, model, usage))
      ensures threw <==> !CanMeter(call)
    {
      var billed := Consume(w, call, usage.totalTokens);
      Record(w, call, SuccessRecord(call, model, usage, billed));
      threw := !Trims(call.featureId);
    }

    method RecordFailure(w: World, call: Call, modelCode: string, provider: Option<string>, thrown: Thrown)
      modifies this`ledger
      ensures ledger == old(ledger).Plus(FailureLedger(w, call, modelCode, provider, thrown))
    {
      Record(w, call, FailureRecord(call, modelCode, provider));
      ledger := ledger.(errors :=
        ledger.errors + [ErrorRecord(call.requestId, provider, Some(modelCode), ErrorCode(thrown))]);
    }

    method ResolveCandidateModels(w: World, modelCode: string) returns (r: Result<seq<Model>, Thrown>)
      ensures r == CandidateModels(w, modelCode)
    {
      var read := w.registry(modelCode);
      if read.Failure? {
        return Failure(read.error);
      }
      var primary := read.value;
      var codes := FallbackCodes(primary);
      var fallbacks: seq<Model> := [];
      for n := 0 to |codes|
        invariant fallbacks == FlatMap(Candidate(w, primary), codes[..n])
      {
        assert codes[..n + 1] == codes[..n] + [codes[n]];
        FlatMapSnoc(Candidate(w, primary), codes[..n], codes[n]);
        if codes[n] != primary.modelCode && w.registry(codes[n]).Success? {
          fallbacks := fallbacks + [w.registry(codes[n]).value];
        }
      }
      assert codes[..|codes|] == codes;
      return Success([primary] + fallbacks);
    }

    method Chat(w: World, call: Call) returns (outcome: ChatOutcome)
      modifies this
      ensures inFlight == old(inFlight)
      ensures ledger == old(ledger).Plus(ChatRun(w, call).ledger) && outcome == ChatRun(w, call).outcome
    {
      inFlight := inFlight + 1;
      var resolved := ResolveCandidateModels(w, call.modelCode);
      if resolved.Failure? {
        inFlight := inFlight - 1;
        return ChatThrew(Enrich(resolved.error, call.requestId, Some(call.modelCode), None));
      }
      var models := resolved.value;
      var lastProviderError: Option<RuntimeError> := None;
      ghost var start, spent := ledger, NOTHING;
      PlusAssociates(start, spent, spent);
      PlusAssociates(ChatRun(w, call).ledger, spent, spent);

      for k := 0 to |models|
        invariant inFlight == old(inFlight) + 1 && ledger == start.Plus(spent)
        invariant ChatFrom(w, call, models, k, lastProviderError).After(spent) == ChatRun(w, call)
      {
        var model, b := models[k], w.behaviours(k);
        if b.gate.Some? {
          PlusAssociates(start, spent, FailureLedger(w, call, model.modelCode, Some(model.provider), b.gate.value));
          RecordFailure(w, call, model.modelCode, Some(model.provider), b.gate.value);
          inFlight := inFlight - 1;
          return ChatThrew(ModelError(b.gate.value, call, model));
        }
        match b.chat {
          case Success(response) =>
            ghost var l := UsageLedger(w, call, model, response.usage);
            PlusAssociates(start, spent, l);
            var threw := RecordUsage(w, call, model, response.usage);
            if !threw {
              inFlight := inFlight - 1;
              return Answered(model.modelCode, response);
            }
            lastProviderError := Some(ModelError(OtherException, call, model));
            PlusAssociates(spent, l, ChatFrom(w, call, models, k + 1, lastProviderError).ledger);
            spent := spent.Plus(l);
          case Failure(thrown) =>
            lastProviderError := Some(ModelError(thrown, call, model));
        }
      }

      PlusAssociates(start, spent, ExhaustedLedger(w, call, models, lastProviderError));
      RecordFailure(w, call, call.modelCode, LastProvider(models),
                    if lastProviderError.Some? then RuntimeException(lastProviderError.value) else OtherException);
      inFlight := inFlight - 1;
      return ChatThrew(Exhausted(call, lastProviderError));
    }

    method Produce(w: World, s: StreamAttempt) returns (events: seq<StreamEvent>, failed: bool)
      ensures StreamRun(events, failed) == Produced(w, s)
    {
      match s {
        case Unopened(_) => return [], true;
        case OpenAiBody(frames, broken, _) =>
          events, failed := OpenAi.ParseOpenAiCompatibleStream(w.parse, frames, broken);
        case ClaudeBody(frames, broken, _) => events, failed := Claude.ParseClaudeStream(w.parse, frames, broken);
      }
    }

    /** Passes events on, one yield each, keeping the usage that a `done` carries. */
    method Relay(w: World, had: seq<StreamEvent>, events: seq<StreamEvent>)
      returns (yielded: seq<StreamEvent>, leaves: bool, lastUsage: Option<TokenUsage>)
      ensures var (count, goes) := Taken(w, |had|, |events|); yielded == had + events[..count] && leaves == goes
      ensures !leaves ==> yielded == had + events && lastUsage == LastSome(DoneUsage, events)
    {
      yielded, lastUsage := had, None;
      for n := 0 to |events|
        invariant yielded == had + events[..n]
        invariant lastUsage == LastSome(DoneUsage, events[..n])
        invariant w.leavesAfter.Some? && n > 0 ==> |had| + n < w.leavesAfter.value
      {
        var event := events[n];
        assert events[..n + 1] == events[..n] + [event];
        LastSomeSnoc(DoneUsage, events[..n], event);
        if event.Done? && event.usage.Some? {
          lastUsage := event.usage;
        }
        assert (had + events[..n]) + [event] == had + events[..n + 1];
        yielded := yielded + [event];
        if w.leavesAfter.Some? && w.leavesAfter.value <= |yielded| {
          LeavesAt(w, |had|, |events|, n);
          return yielded, true, lastUsage;
        }
      }
      assert events[..|events|] == events;
      leaves := false;
    }

    /** One candidate: the gate, the relayed stream, and the accounting of its usage. */
    method AttemptStream(w: World, call: Call, model: Model, b: Behaviour, had: seq<StreamEvent>)
      returns (yielded: seq<StreamEvent>, result: Fate)
      modifies this`ledger
      ensures var a := Attempted(w, b, Produced(w, b.stream), call, model, had);
              yielded == a.yielded && result == a.result && ledger == old(ledger).Plus(a.ledger)
    {
      PlusAssociates(ledger, NOTHING, NOTHING);
      if b.gate.Some? {
        RecordFailure(w, call, model.modelCode, Some(model.provider), b.gate.value);
        return had, Ended(StreamThrew(ModelError(b.gate.value, call, model)));
      }
      var events, failed := Produce(w, b.stream);
      var leaves, lastUsage;
      yielded, leaves, lastUsage := Relay(w, had, events);
      if leaves {
        return yielded, Ended(Abandoned);
      }
      if failed {
        return yielded, FellThrough(ModelError(b.stream.thrown, call, model));
      }
      var threw := false;
      if lastUsage.Some? {
        threw := RecordUsage(w, call, model, lastUsage.value);
      }
      result := if threw then FellThrough(ModelError(OtherException, call, model))
        else Ended(Completed(model.modelCode));
    }

    method ChatStream(w: World, call: Call) returns (yielded: seq<StreamEvent>, outcome: StreamOutcome)
      modifies this
      ensures inFlight == old(inFlight)
      ensures var run := StreamRunOf(w, call);
              ledger == old(ledger).Plus(run.ledger) && yielded == run.yielded && outcome == run.outcome
    {
      yielded := [];
      inFlight := inFlight + 1;
      PlusAssociates(ledger, NOTHING, NOTHING);
      var resolved := ResolveCandidateModels(w, call.modelCode);
      if resolved.Failure? {
        inFlight := inFlight - 1;
        return [], StreamThrew(Enrich(resolved.error, call.requestId, Some(call.modelCode), None));
      }
      var models := FlatMap(Streams, resolved.value);
      if models == [] {
        inFlight := inFlight - 1;
        return [], StreamThrew(RuntimeError("MODEL_NOT_ROUTABLE", Some(call.requestId), Some(call.modelCode), None));
      }
      var lastProviderError: Option<RuntimeError> := None;
      ghost var start, spent, goal := ledger, NOTHING, StreamRunOf(w, call);
      PlusAssociates(goal.ledger, NOTHING, NOTHING);

      for k := 0 to |models|
        invariant inFlight == old(inFlight) + 1 && ledger == start.Plus(spent)
        invariant StreamFrom(w, Runs(w), call, models, k, yielded, lastProviderError).After(spent) == goal
      {
        ghost var a := Attempted(w, w.behaviours(k), Runs(w)(k), call, models[k], yielded);
        var result;
        yielded, result := AttemptStream(w, call, models[k], w.behaviours(k), yielded);
        PlusAssociates(start, spent, a.ledger);
        if result.Ended? {
          inFlight := inFlight - 1;
          return yielded, result.outcome;
        }
        lastProviderError := Some(result.error);
        PlusAssociates(spent, a.ledger, StreamFrom(w, Runs(w), call, models, k + 1, yielded, lastProviderError).ledger);
        spent := spent.Plus(a.ledger);
      }

      PlusAssociates(start, spent, ExhaustedLedger(w, call, models, lastProviderError));
      RecordFailure(w, call, call.modelCode, LastProvider(models),
                    if lastProviderError.Some? then RuntimeException(lastProviderError.value) else OtherException);
      inFlight := inFlight - 1;
      return yielded, StreamThrew(Exhausted(call, lastProviderError));
    }
  }
}
