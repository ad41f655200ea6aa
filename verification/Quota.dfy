/** The quota gate (service/src/quota/quota.service.ts): a grant, then what the platform last said about quota. */
module Quota {
  import opened Columns
  import opened Wrappers
  import opened EntitlementCache
  import opened Grants
  import Trimming = Text

  // ---- The verdict ----

  datatype Verdict = Allowed | LookupRefused(error: LookupError) | GrantDenied | QuotaExceeded

  /** At least one pool is listed, and none has anything left. */
  predicate Exhausted(view: View) {
    var pools := view.quotaPools.GetOr([]);
    |pools| > 0 && forall i :: 0 <= i < |pools| ==> pools[i].remaining <= 0.0
  }

  /** `every` stops at the first pool with something left. */
  method CheckEntitlement(workspaceId: Option<string>, outcome: Outcome) returns (refused: bool)
    ensures refused <==> workspaceId.GetOr("") != "" && outcome.Resolved? && Exhausted(outcome.view)
    ensures refused <==>
      && workspaceId.Some? && workspaceId.value != "" && outcome.Resolved?
      && outcome.view.quotaPools.Some? && |outcome.view.quotaPools.value| > 0
      && forall i :: 0 <= i < |outcome.view.quotaPools.value| ==> outcome.view.quotaPools.value[i].remaining <= 0.0
  {
    if workspaceId.None? || workspaceId.value == "" || !outcome.Resolved? {
      return false;
    }
    var pools := outcome.view.quotaPools.GetOr([]);
    if |pools| == 0 {
      return false;
    }
    for i := 0 to |pools|
      invariant forall j :: 0 <= j < i ==> pools[j].remaining <= 0.0
    {
      if pools[i].remaining > 0.0 {
        return false;
      }
    }
    return true;
  }

  function AssertAllowed(
      grant: Result<Option<Grant>, LookupError>, workspaceId: Option<string>, outcome: Outcome): Verdict
  {
    match grant
    case Failure(e) => LookupRefused(e)
    case Success(None) => GrantDenied
    case Success(Some(_)) =>
      if workspaceId.GetOr("") != "" && outcome.Resolved? && Exhausted(outcome.view) then QuotaExceeded else Allowed
  }

  // ---- Application scope ----

  const COMMERCE_SENTINEL_UUID := "00000000-0000-0000-0000-000000000000"

  datatype ScopeRequest = ScopeRequest(applicationId: Option<string>, applicationType: Option<string>,
      agentId: Option<string>)

  datatype ApplicationScope = ApplicationScope(applicationId: string, applicationType: string, agentId: string) {
    function AsRequest(): ScopeRequest {
      ScopeRequest(Some(applicationId), Some(applicationType), Some(agentId))
    }
  }

  function TrimmedId(id: Option<string>): Option<string> {
    if id.Some? then Some(Trimming.Trim(id.value)) else None
  }

  function NormalizeScope(id: Option<string>, sentinel: string): string {
    var trimmed := TrimmedId(id).GetOr("");
    if trimmed == "" then sentinel else trimmed
  }

  function ScopeOver(sentinel: string, request: ScopeRequest): ApplicationScope {
    var applicationId, agentId := TrimmedId(request.applicationId), TrimmedId(request.agentId);
    if applicationId.GetOr("") != "" then
      ApplicationScope(
        applicationId.value, request.applicationType.GetOr("agent"),
        if request.applicationType == Some("agent") then
          NormalizeScope(agentId.OrElse(applicationId), sentinel) else sentinel)
    else if agentId.GetOr("") != "" then ApplicationScope(agentId.value, "agent", agentId.value)
    else ApplicationScope(sentinel, "internal_service", sentinel)
  }

  function ResolveApplicationScope(request: ScopeRequest): ApplicationScope {
    ScopeOver(COMMERCE_SENTINEL_UUID, request)
  }

  lemma {:induction false} TrimmedOnce(id: Option<string>)
    ensures TrimmedId(TrimmedId(id)) == TrimmedId(id)
  {
    if id.Some? {
      Trimming.TrimIdempotent(id.value);
    }
  }

  lemma {:induction false} ScopeOverTwice(sentinel: string, request: ScopeRequest)
    requires sentinel != "" && Trimming.Trim(sentinel) == sentinel
    ensures var scope := ScopeOver(sentinel, request);
            && ScopeOver(sentinel, scope.AsRequest()) == scope
            && scope.applicationId != "" && scope.agentId != ""
  {
    TrimmedOnce(request.applicationId);
    TrimmedOnce(request.agentId);
  }

  /** A resolved scope resolves to itself, so the gate, the log and the meter agree wherever they resolve it from. */
  lemma {:induction false} ScopeResolvesOnce(request: ScopeRequest)
    ensures var scope := ResolveApplicationScope(request);
            ResolveApplicationScope(scope.AsRequest()) == scope && scope.applicationId != "" && scope.agentId != ""
  {
    Trimming.TrimUnchanged(COMMERCE_SENTINEL_UUID);
    ScopeOverTwice(COMMERCE_SENTINEL_UUID, request);
  }

  /**
   * Which scope a request has: its application id, as an agent unless it says otherwise; without one, its agent id, as
   * an agent; without either, the service's own. An agent's application speaks for itself when no agent is named.
   */
  predicate ScopeSays(scope: ApplicationScope, request: ScopeRequest, own: string) {
    var application := Trimming.Trim(request.applicationId.GetOr(""));
    var agent := Trimming.Trim(request.agentId.GetOr(""));
    if application != "" then
      && scope.applicationId == application
      && scope.applicationType == (if request.applicationType.Some? then request.applicationType.value else "agent")
      && scope.agentId == (if request.applicationType != Some("agent") then own
                           else if request.agentId.None? then application
                           else if agent == "" then own else agent)
    else if agent != "" then scope == ApplicationScope(agent, "agent", agent)
    else scope == ApplicationScope(own, "internal_service", own)
  }

  lemma {:induction false} ScopeOverSays(sentinel: string, request: ScopeRequest)
    ensures ScopeSays(ScopeOver(sentinel, request), request, sentinel)
  {
    TrimmedOnce(request.applicationId);
    TrimmedOnce(request.agentId);
    Trimming.TrimUnchanged("");
  }

  lemma {:induction false} ScopeSaysTheRequest(request: ScopeRequest)
    ensures ScopeSays(ResolveApplicationScope(request), request, "00000000-0000-0000-0000-000000000000")
  {
    ScopeOverSays(COMMERCE_SENTINEL_UUID, request);
  }

  // ---- The gate over histories and tables ----

  /**
   * At event k of any interleaving, for any spelling of the ids: the gate throws for an id that is no uuid, denies
   * unless a live grant matches in the way the spelling allows, and then refuses for quota exactly when the platform
   * said the workspace is exhausted: in this caller's own reply, or in the latest reply, less than a lifetime old.
   */
  lemma {:induction false} RefusalNeedsFreshExhaustion(
      settings: Settings, h: History, k: nat, r: Registry, modelId: string, scope: Scope, nullsFirst: bool,
        rows: seq<Grant>)
    requires Legal(settings, h) && Monotone(h) && k < |h| && AnswerAt(settings, h, k).Some? && h[k].ws != ""
    requires WellStored(r) && IsSorted(r, ForModel(modelId), scope, nullsFirst, rows)
    ensures var verdict := AssertAllowed(FindGrant(rows, scope), Some(h[k].ws), AnswerAt(settings, h, k).value);
            var legible := IsUuid(scope.tenantId) && IsUuid(scope.applicationId);
            var granted := legible && GateOpens(r, ForModel(modelId), scope, nullsFirst);
            && (verdict.LookupRefused? <==> !legible)
            && (verdict == GrantDenied <==> legible && !granted)
            && (verdict == QuotaExceeded <==>
                granted && settings.configured
                && exists i :: AnswersFrom(settings, h, i, k) && ExhaustedBy(h, i) && NotOverridden(h, i, k))
  {
    GateOpensIffGranted(r, ForModel(modelId), scope, nullsFirst, rows);
    ExhaustedAnswer(settings, h, k);
  }

  predicate ExhaustedBy(h: History, i: int) {
    0 <= i < |h| && h[i].Replied? && h[i].reply.Answered? && Exhausted(h[i].reply.view)
  }

  /** A caller with a reply of its own goes by that reply. */
  predicate NotOverridden(h: History, i: int, k: nat)
    requires k < |h|
  {
    h[k].Replied? ==> i == k
  }

  lemma {:induction false} ExhaustedAnswer(settings: Settings, h: History, k: nat)
    requires Legal(settings, h) && Monotone(h) && k < |h| && AnswerAt(settings, h, k).Some?
    ensures var outcome := AnswerAt(settings, h, k).value;
            outcome.Resolved? && Exhausted(outcome.view) <==>
              settings.configured
              && exists i :: AnswersFrom(settings, h, i, k) && ExhaustedBy(h, i) && NotOverridden(h, i, k)
  {
    BoundedStaleness(settings, h, k);
    if h[k].Replied? {
      var i :| WaitsFor(settings, h, i, k);
      assert ExhaustedBy(h, k) ==> AnswersFrom(settings, h, k, k);
    } else if settings.configured {
      HitIffFresh(settings, h, k);
      forall i | AnswersFrom(settings, h, i, k) ensures Serves(settings, h, i, k) {
      }
    }
  }
}
