/** What the records, rows and errors of a run say, from the fields of the request and of the candidates. */
module ChatRecords {
  import opened ChatGateway
  import opened ChatLaws
  import opened Columns
  import opened Json
  import opened RuntimeTypes
  import opened Sequences
  import opened Wrappers
  import Trimming = Text

  // ---- What is stored ----

  lemma {:induction false} ChatFromStoresNothing(
      w: World, call: Call, models: seq<Model>, k: nat, last: Option<RuntimeError>)
    requires k <= |models| && !(w.storageUp && CanLog(call))
    ensures ChatFrom(w, call, models, k, last).ledger.stored == []
    decreases |models| - k
  {
    if k < |models| && ChatFallsThrough(w, call, k) {
      ChatFromStoresNothing(w, call, models, k + 1, Some(FailureAt(w, call, models, k)));
    }
  }

  lemma {:induction false} StreamFromStoresNothing(
      w: World, runs: nat -> StreamRun, call: Call, models: seq<Model>, k: nat,
      yielded: seq<StreamEvent>, last: Option<RuntimeError>)
    requires k <= |models| && !(w.storageUp && CanLog(call))
    ensures StreamFrom(w, runs, call, models, k, yielded, last).ledger.stored == []
    decreases |models| - k
  {
    if k < |models| {
      var a := Attempted(w, w.behaviours(k), runs(k), call, models[k], yielded);
      assert a.ledger.stored == [];
      if a.result.FellThrough? {
        StreamFromStoresNothing(w, runs, call, models, k + 1, a.yielded, Some(a.result.error));
      }
    }
  }

  /** A call that cannot be logged leaves no row, in any run, whatever it is billed. */
  lemma {:induction false} UnloggableStoresNothing(w: World, call: Call)
    requires !CanLog(call)
    ensures ChatRun(w, call).ledger.stored == [] && StreamRunOf(w, call).ledger.stored == []
  {
    var resolved := CandidateModels(w, call.modelCode);
    if resolved.Success? {
      ChatFromStoresNothing(w, call, resolved.value, 0, None);
      StreamFromStoresNothing(w, Runs(w), call, FlatMap(Streams, resolved.value), 0, [], None);
    }
  }

  /** Which feature ids the metering step can trim. */
  lemma {:induction false} MeterableCalls(call: Call)
    ensures call.featureId.None? || call.featureId == Some(Null) ==> CanMeter(call)
    ensures forall text :: call.featureId == Some(Str(text)) ==> CanMeter(call)
    ensures CanMeter(call) ==>
              forall v :: call.featureId == Some(v) ==> !v.Number? && !v.Bool? && !v.Array? && !v.Object?
  {}

  /** A blank usage type, or one of the three, on a call of plain texts, can be logged; any other text cannot. */
  lemma {:induction false} LoggableCalls(call: Call, usageType: string)
    requires call.usageType == Some(Str(usageType)) && call.featureId.None? && call.businessId.None?
    requires !HasNul(call.requestId)
    ensures CanLog(call) <==> Trimming.Trim(usageType) in {"", "normal", "retry", "test"}
  {
    TrimHasNoNul(call.requestId);
    var trimmed := Trimming.Trim(usageType);
    if |trimmed| > 16 {
      assert |trimmed[..16]| == 16;
    }
  }

  lemma {:induction false} TrimHasNoNul(s: string)
    requires !HasNul(s)
    ensures !HasNul(LoggedRequestId(s))
  {
    var before, after := Trimming.TrimIsTheMiddle(s);
    var middle := Trimming.Trim(s);
    forall i | 0 <= i < |middle| ensures middle[i] != '\0' {
      assert s[|before| + i] == middle[i];
    }
  }

  /** The row of a record: its counts and status as they are, its texts trimmed and cut to their columns. */
  lemma {:induction false} RowsKeepRecords(call: Call, r: RequestRecord)
    ensures var row, id := RowOf(call, r), Trimming.Trim(r.requestId);
            && row.status == r.status
            && row.inputTokens == r.inputTokens && row.outputTokens == r.outputTokens
            && row.totalTokens == r.totalTokens
            && row.billedMetricKey == r.billedMetricKey && row.billedAmount == r.billedAmount
            && (id != "" && |id| <= 128 ==> row.requestId == id)
            && (|id| > 128 ==> |row.requestId| == 128 && row.requestId <= id)
            && (r.modelCode.None? ==> row.modelCode.None?) && (r.providerCode.None? ==> row.providerCode.None?)
            && (r.modelCode.Some? ==> Cut(row.modelCode, r.modelCode.value, 128))
            && (r.providerCode.Some? ==> Cut(row.providerCode, r.providerCode.value, 64))
  {}

  /** What a column of n characters holds of a text: nothing of a blank one, else its trimmed beginning. */
  predicate Cut(column: Option<string>, text: string, n: nat) {
    var trimmed := Trimming.Trim(text);
    if trimmed == "" then column.None?
    else column.Some? && column.value <= trimmed && |column.value| == if |trimmed| < n then |trimmed| else n
  }

  lemma {:induction false} BatchIsUnloggable(call: Call)
    requires call.usageType == Some(Str("batch"))
    ensures !CanLog(call)
  {
    Trimming.TrimUnchanged("batch");
  }

  /** A usage type outside the column's list: the answer is served and billed, and its row is lost. */
  lemma {:induction false} BatchIsBilledAndLost(w: World, call: Call)
    requires call.usageType == Some(Str("batch")) && CanMeter(call) && ChatRun(w, call).outcome.Answered?
    ensures var l, usage := ChatRun(w, call).ledger, ChatRun(w, call).outcome.response.usage;
            l.stored == [] && BilledFor(w, call, l, usage)
  {
    ChatMetering(w, call);
    BatchIsUnloggable(call);
    UnloggableStoresNothing(w, call);
  }

  // ---- Whom the records name ----

  predicate Names(modelCode: Option<string>, providerCode: Option<string>, m: Model) {
    modelCode == Some(m.modelCode) && providerCode == Some(m.provider)
  }

  /** A call that no candidate completed: the model that was asked for, and the provider tried last. */
  predicate NamesTheCall(modelCode: Option<string>, providerCode: Option<string>, call: Call, models: seq<Model>) {
    && modelCode == Some(call.modelCode)
    && providerCode == if models == [] then None else Some(models[|models| - 1].provider)
  }

  predicate GateCode(thrown: Thrown, code: Option<string>) {
    code == match thrown { case RuntimeException(e) => Some(e.code) case OtherException => None }
  }

  /** A success record names a candidate that was let through, and a failure record the one denied, or the call. */
  ghost predicate NamedRecord(w: World, call: Call, models: seq<Model>, r: RequestRecord) {
    if r.status == Succeeded then
      exists k: nat :: k < |models| && w.behaviours(k).gate.None? && Names(r.modelCode, r.providerCode, models[k])
    else
      || NamesTheCall(r.modelCode, r.providerCode, call, models)
      || exists k: nat :: k < |models| && w.behaviours(k).gate.Some? && Names(r.modelCode, r.providerCode, models[k])
  }

  ghost predicate NamedError(w: World, call: Call, models: seq<Model>, e: ErrorRecord) {
    || NamesTheCall(e.modelCode, e.providerCode, call, models)
    || exists k: nat ::
         && k < |models| && w.behaviours(k).gate.Some? && Names(e.modelCode, e.providerCode, models[k])
         && GateCode(w.behaviours(k).gate.value, e.errorCode)
  }

  ghost predicate NamedLedger(w: World, call: Call, models: seq<Model>, l: Ledger) {
    && (forall r :: r in l.attempted ==> NamedRecord(w, call, models, r))
    && (forall e :: e in l.errors ==> NamedError(w, call, models, e))
  }

  lemma {:induction false} ChatFromNames(
      w: World, call: Call, models: seq<Model>, k: nat, last: Option<RuntimeError>)
    requires k <= |models|
    ensures NamedLedger(w, call, models, ChatFrom(w, call, models, k, last).ledger)
    decreases |models| - k
  {
    if k < |models| {
      assert Names(Some(models[k].modelCode), Some(models[k].provider), models[k]);
      if ChatFallsThrough(w, call, k) {
        ChatFromNames(w, call, models, k + 1, Some(FailureAt(w, call, models, k)));
      }
    }
  }

  lemma {:induction false} AttemptNames(
      w: World, call: Call, models: seq<Model>, k: nat, run: StreamRun, had: seq<StreamEvent>)
    requires k < |models|
    ensures NamedLedger(w, call, models, Attempted(w, w.behaviours(k), run, call, models[k], had).ledger)
  {
    assert Names(Some(models[k].modelCode), Some(models[k].provider), models[k]);
  }

  lemma {:induction false} StreamFromNames(
      w: World, runs: nat -> StreamRun, call: Call, models: seq<Model>, k: nat,
      yielded: seq<StreamEvent>, last: Option<RuntimeError>)
    requires k <= |models|
    ensures NamedLedger(w, call, models, StreamFrom(w, runs, call, models, k, yielded, last).ledger)
    decreases |models| - k
  {
    if k < |models| {
      var a := Attempted(w, w.behaviours(k), runs(k), call, models[k], yielded);
      AttemptNames(w, call, models, k, runs(k), yielded);
      if a.result.FellThrough? {
        StreamFromNames(w, runs, call, models, k + 1, a.yielded, Some(a.result.error));
      }
    }
  }

  /** Every record and error of any run names the candidate it is about, or the call when none completed it. */
  lemma {:induction false} RecordsNameTheirCandidate(w: World, call: Call)
    requires CandidateModels(w, call.modelCode).Success?
    ensures var models := CandidateModels(w, call.modelCode).value;
            && NamedLedger(w, call, models, ChatRun(w, call).ledger)
            && NamedLedger(w, call, FlatMap(Streams, models), StreamRunOf(w, call).ledger)
  {
    var models := CandidateModels(w, call.modelCode).value;
    ChatFromNames(w, call, models, 0, None);
    StreamFromNames(w, Runs(w), call, FlatMap(Streams, models), 0, [], None);
  }

  // ---- Errors and candidates ----

  /** What the caller is told of a failure: its own error if it names a request, and else one filled in for this one. */
  lemma {:induction false} ErrorsSayWhatFailed(t: Thrown, call: Call, model: Model)
    ensures var e := ModelError(t, call, model);
            match t
            case OtherException =>
              && e.code == "PROVIDER_UNAVAILABLE" && e.requestId == Some(call.requestId)
              && e.modelCode == Some(model.modelCode) && e.provider == Some(model.provider)
            case RuntimeException(o) =>
              && e.code == o.code
              && (o.requestId.GetOr("") != "" ==> e == o)
              && (o.requestId.GetOr("") == "" ==>
                    && e.requestId == Some(call.requestId)
                    && (o.modelCode.Some? ==> e.modelCode == o.modelCode)
                    && (o.modelCode.None? ==> e.modelCode == Some(model.modelCode))
                    && (o.provider.Some? ==> e.provider == o.provider)
                    && (o.provider.None? ==> e.provider == Some(model.provider)))
  {}

  /** What one entry of a model's fallback list adds: the model of its trimmed code, if another that can be read. */
  function FallbackOf(w: World, primary: Model): Json -> seq<Model> {
    (v: Json) =>
      if v.Str? && Trimming.Trim(v.s) != "" && Trimming.Trim(v.s) != primary.modelCode
         && w.registry(Trimming.Trim(v.s)).Success?
      then [w.registry(Trimming.Trim(v.s)).value] else []
  }

  lemma {:induction false} FallbacksInOrder(w: World, primary: Model, items: seq<Json>)
    ensures FlatMap(Candidate(w, primary), FlatMap(StringsOf, items)) == FlatMap(FallbackOf(w, primary), items)
  {
    if items != [] {
      var init, v := items[..|items| - 1], items[|items| - 1];
      FallbacksInOrder(w, primary, init);
      FlatMapAppend(Candidate(w, primary), FlatMap(StringsOf, init), StringsOf(v));
      if StringsOf(v) != [] {
        assert StringsOf(v) == [] + [Trimming.Trim(v.s)];
        FlatMapSnoc(Candidate(w, primary), [], Trimming.Trim(v.s));
      }
    }
  }

  /** The candidates are the primary and what its configured list adds, entry by entry; streams skip some of them. */
  lemma {:induction false} CandidatesFollowTheConfig(w: World, modelCode: string, primary: Model)
    requires w.registry(modelCode) == Success(primary)
    ensures CandidateModels(w, modelCode).Success?
    ensures var models := CandidateModels(w, modelCode).value;
            && models == [primary] + (match Field(primary.config, "fallbackModelCodes")
                                      case Some(Array(items)) => FlatMap(FallbackOf(w, primary), items)
                                      case _ => [])
            && forall m :: m in FlatMap(Streams, models) <==> m in models && m.supportsStreaming
  {
    match Field(primary.config, "fallbackModelCodes") {
      case Some(Array(items)) => FallbacksInOrder(w, primary, items);
      case _ =>
    }
    StreamsFilter(CandidateModels(w, modelCode).value);
  }

  lemma {:induction false} StreamsFilter(models: seq<Model>)
    ensures forall m :: m in FlatMap(Streams, models) <==> m in models && m.supportsStreaming
  {
    if models != [] {
      var init, last := models[..|models| - 1], models[|models| - 1];
      StreamsFilter(init);
      assert models == init + [last];
    }
  }
}
