/**
 * Grant selection (service/src/registry/model-registry.repository.ts): a sorted fetch of two rows and two
 * `find` calls stand in for "best exact grant, else best wildcard", for the gate, for task-profile routing
 * and, without the sort, for the listing.
 */
module Grants {
  import opened Columns
  import opened Wrappers

  datatype Grant = Grant(
    id: string, modelId: string, tenantId: string, applicationId: Option<string>, applicationType: Option<string>,
    taskProfile: Option<string>, priority: int, createdAt: int, isActive: bool, isDeleted: bool, expiresAt: Option<int>)

  datatype Model = Model(id: string, modelCode: string, isActive: bool, isDeleted: bool)

  /** The two tables, by primary key. */
  datatype Registry = Registry(grants: set<Grant>, models: map<string, Model>)

  /** Stored identifiers are canonical, and the constraints of the model table hold. */
  ghost predicate WellStored(r: Registry) {
    && (forall g :: g in r.grants && g.applicationId.Some? ==> IsCanonical(g.applicationId.value))
    && (forall id :: id in r.models ==> r.models[id].id == id)
    && (forall g :: g in r.grants ==> g.modelId in r.models)
    && forall a, b :: a in r.models && b in r.models && r.models[a].modelCode == r.models[b].modelCode ==> a == b
  }

  // ---- Queries ----

  /** The caller's tenant and application scope, at one instant. */
  datatype Scope = Scope(tenantId: string, applicationId: string, applicationType: string, now: int)

  /** Which grants a lookup is about: those of a model, or those of a task profile on active models. */
  datatype Target = ForModel(modelId: string) | ForTaskProfile(taskProfile: string)

  predicate IsActiveModel(r: Registry, id: string) {
    id in r.models && r.models[id].isActive && !r.models[id].isDeleted
  }

  predicate IsLive(g: Grant, now: int) {
    !g.isDeleted && g.isActive && (g.expiresAt.None? || g.expiresAt.value > now)
  }

  predicate IsWildcard(g: Grant) {
    g.applicationId.None? && g.applicationType.None?
  }

  predicate IsExact(g: Grant, s: Scope) {
    g.applicationId == Some(Canonical(s.applicationId)) && g.applicationType == Some(s.applicationType)
  }

  predicate IsAbout(r: Registry, target: Target, g: Grant) {
    match target
    case ForModel(id) => g.modelId == id
    case ForTaskProfile(profile) => g.taskProfile == Some(profile) && IsActiveModel(r, g.modelId)
  }

  /** The `where` clause. */
  predicate Selects(r: Registry, target: Target, s: Scope, g: Grant) {
    && g in r.grants && IsAbout(r, target, g) && g.tenantId == Canonical(s.tenantId)
    && IsLive(g, s.now) && (IsExact(g, s) || IsWildcard(g))
  }

  /** The lowest priority number, and the newest of those. */
  predicate NoWorse(g: Grant, h: Grant) {
    g.priority < h.priority || (g.priority == h.priority && g.createdAt >= h.createdAt)
  }

  /** Where `applicationId desc` puts a row: PostgreSQL's default for descending order is nulls first. */
  function NullRank(g: Grant, nullsFirst: bool): int {
    if g.applicationId.Some? then 1 else if nullsFirst then 0 else 2
  }

  predicate InOrder(g: Grant, h: Grant, nullsFirst: bool) {
    NullRank(g, nullsFirst) < NullRank(h, nullsFirst)
      || (NullRank(g, nullsFirst) == NullRank(h, nullsFirst) && NoWorse(g, h))
  }

  /** Any order of the selected rows that `orderBy` allows. */
  ghost predicate IsSorted(r: Registry, target: Target, s: Scope, nullsFirst: bool, rows: seq<Grant>) {
    && (forall g :: g in rows <==> Selects(r, target, s, g))
    && (forall i, j :: 0 <= i < j < |rows| ==> rows[i] != rows[j])
    && forall i, j :: 0 <= i < j < |rows| ==> InOrder(rows[i], rows[j], nullsFirst)
  }

  function TakeTwo(rows: seq<Grant>): seq<Grant> {
    if |rows| <= 2 then rows else rows[..2]
  }

  // ---- The two finds ----

  /** `===` compares the row's application id with the caller's text as it is. */
  function FindExact(rows: seq<Grant>, s: Scope): Option<Grant> {
    if rows == [] then None
    else if rows[0].applicationId == Some(s.applicationId)
      && rows[0].applicationType == Some(s.applicationType) then Some(rows[0])
    else FindExact(rows[1..], s)
  }

  function FindWildcard(rows: seq<Grant>): Option<Grant> {
    if rows == [] then None
    else if IsWildcard(rows[0]) then Some(rows[0])
    else FindWildcard(rows[1..])
  }

  function Pick(rows: seq<Grant>, s: Scope): Option<Grant> {
    FindExact(rows, s).OrElse(FindWildcard(rows))
  }

  datatype LookupError = InvalidTenantId | InvalidApplicationId

  /** findBestGrant, and the first half of findModelCodeForTaskProfile. */
  function FindGrant(sorted: seq<Grant>, s: Scope): Result<Option<Grant>, LookupError> {
    if !IsUuid(s.tenantId) then Failure(InvalidTenantId)
    else if !IsUuid(s.applicationId) then Failure(InvalidApplicationId)
    else Success(Pick(TakeTwo(sorted), s))
  }

  // ---- The rule, and when the fetch keeps it ----

  ghost predicate IsBest(r: Registry, target: Target, s: Scope, g: Grant, exact: bool) {
    && Selects(r, target, s, g) && IsExact(g, s) == exact
    && forall h :: Selects(r, target, s, h) && IsExact(h, s) == exact ==> NoWorse(g, h)
  }

  ghost predicate HasExact(r: Registry, target: Target, s: Scope) {
    exists g :: Selects(r, target, s, g) && IsExact(g, s)
  }

  ghost predicate AtMostOneWildcard(r: Registry, target: Target, s: Scope) {
    forall g, h :: Selects(r, target, s, g) && Selects(r, target, s, h) && IsWildcard(g) && IsWildcard(h) ==> g == h
  }

  /** The best live exact grant if there is one, else the best live wildcard, else none. */
  ghost predicate FollowsRule(r: Registry, target: Target, s: Scope, picked: Option<Grant>) {
    match picked
    case Some(g) => IsBest(r, target, s, g, HasExact(r, target, s))
    case None => forall g :: !Selects(r, target, s, g)
  }

  lemma {:induction false} PickOfTwo(rows: seq<Grant>, s: Scope)
    requires forall g :: g in rows ==> IsExact(g, s) || IsWildcard(g)
    requires |rows| <= 2
    ensures IsCanonical(s.applicationId) ==>
              Pick(rows, s) == if |rows| > 0 && IsExact(rows[0], s) then Some(rows[0])
                               else if |rows| > 1 && IsExact(rows[1], s) then Some(rows[1])
                               else if |rows| > 0 then Some(rows[0]) else None
    ensures (forall g :: g in rows && g.applicationId.Some? ==> IsCanonical(g.applicationId.value))
            && !IsCanonical(s.applicationId) ==>
              Pick(rows, s) == if |rows| > 0 && IsWildcard(rows[0]) then Some(rows[0])
                               else if |rows| > 1 && IsWildcard(rows[1]) then Some(rows[1]) else None
  {
    if |rows| > 0 {
      assert rows[0] in rows && rows[1..] == if |rows| == 2 then [rows[1]] else [];
      assert |rows| == 2 ==> rows[1] in rows && rows[1..][1..] == [];
      assert FindExact(rows[1..], s) == if |rows| == 2 && rows[1].applicationId == Some(s.applicationId)
        && rows[1].applicationType == Some(s.applicationType)
                                        then Some(rows[1]) else None;
      assert FindWildcard(rows[1..]) == if |rows| == 2 && IsWildcard(rows[1]) then Some(rows[1]) else None;
    }
  }

  /** Row k of a sorted fetch is best of its kind when every earlier row is of the other kind. */
  lemma {:induction false} FirstOfKindIsBest(
      r: Registry, target: Target, s: Scope, nullsFirst: bool, rows: seq<Grant>, k: nat)
    requires IsSorted(r, target, s, nullsFirst, rows) && k < |rows|
    requires forall i :: 0 <= i < k ==> IsExact(rows[i], s) != IsExact(rows[k], s)
    ensures IsBest(r, target, s, rows[k], IsExact(rows[k], s))
  {
    assert Selects(r, target, s, rows[k]);
    forall h | Selects(r, target, s, h) && IsExact(h, s) == IsExact(rows[k], s) ensures NoWorse(rows[k], h) {
      var j :| 0 <= j < |rows| && rows[j] == h;
      assert j < k || j == k || InOrder(rows[k], rows[j], nullsFirst);
    }
  }

  /**
   * The sorted fetch of two keeps the rule exactly when there is no exact grant to prefer, or the caller's
   * application id is spelled as stored and the wildcards cannot push the exact grant out: nulls sort last,
   * or at most one wildcard matches.
   */
  lemma {:induction false} TopTwoKeepsRule(r: Registry, target: Target, s: Scope, nullsFirst: bool, rows: seq<Grant>)
    requires WellStored(r) && IsSorted(r, target, s, nullsFirst, rows)
    ensures FollowsRule(r, target, s, Pick(TakeTwo(rows), s)) <==>
            !HasExact(r, target, s) || (IsCanonical(s.applicationId)
              && (!nullsFirst || AtMostOneWildcard(r, target, s)))
  {
    var two := TakeTwo(rows);
    forall i | 0 <= i < |two| ensures two[i] == rows[i] && Selects(r, target, s, rows[i]) {
      assert rows[i] in rows;
    }
    PickOfTwo(two, s);
    if !HasExact(r, target, s) {
      if |rows| > 0 {
        FirstOfKindIsBest(r, target, s, nullsFirst, rows, 0);
      }
    } else {
      ExactRow(r, target, s, nullsFirst, rows);
      if IsExact(rows[0], s) {
        FirstOfKindIsBest(r, target, s, nullsFirst, rows, 0);
      } else if IsExact(rows[1], s) {
        FirstOfKindIsBest(r, target, s, nullsFirst, rows, 1);
      }
    }
  }

  /** Where the first exact row stands among the first two. */
  lemma {:induction false} ExactRow(r: Registry, target: Target, s: Scope, nullsFirst: bool, rows: seq<Grant>)
    requires IsSorted(r, target, s, nullsFirst, rows) && HasExact(r, target, s)
    ensures |rows| > 0 && (!IsExact(rows[0], s) ==> |rows| > 1 && nullsFirst)
    ensures (IsExact(rows[0], s) || IsExact(rows[1], s)) <==> (!nullsFirst || AtMostOneWildcard(r, target, s))
    ensures nullsFirst && IsExact(rows[0], s) ==> forall g :: Selects(r, target, s, g) ==> IsExact(g, s)
  {
    var g :| Selects(r, target, s, g) && IsExact(g, s);
    var k :| 0 <= k < |rows| && rows[k] == g;
    assert k > 0 ==> InOrder(rows[0], rows[k], nullsFirst) && Selects(r, target, s, rows[0]);
    assert k > 1 ==> InOrder(rows[1], rows[k], nullsFirst) && Selects(r, target, s, rows[1]);
    if nullsFirst {
      forall w | Selects(r, target, s, w) && IsWildcard(w)
        ensures !IsExact(rows[0], s) && (w == rows[0] || !IsExact(rows[1], s))
      {
        var j :| 0 <= j < |rows| && rows[j] == w;
        assert j > 0 ==> InOrder(rows[0], rows[j], nullsFirst);
        assert j > 1 ==> InOrder(rows[1], rows[j], nullsFirst);
      }
    }
  }

  lemma {:induction false} FirstInOrder(rows: set<Grant>, nullsFirst: bool) returns (first: Grant)
    requires rows != {}
    ensures first in rows && forall g :: g in rows ==> InOrder(first, g, nullsFirst)
    decreases rows
  {
    var g :| g in rows;
    first := g;
    if rows != {g} {
      var other := FirstInOrder(rows - {g}, nullsFirst);
      first := if InOrder(g, other, nullsFirst) then g else other;
      assert forall h :: h in rows ==> h == g || h in rows - {g};
    }
  }

  lemma {:induction false} Sort(rows: set<Grant>, nullsFirst: bool) returns (sorted: seq<Grant>)
    ensures forall g :: g in sorted <==> g in rows
    ensures forall i, j :: 0 <= i < j < |sorted| ==> sorted[i] != sorted[j] && InOrder(sorted[i], sorted[j], nullsFirst)
    decreases rows
  {
    if rows == {} {
      sorted := [];
    } else {
      var first := FirstInOrder(rows, nullsFirst);
      var rest := Sort(rows - {first}, nullsFirst);
      sorted := [first] + rest;
      assert forall j :: 0 <= j < |rest| ==> rest[j] in rest;
    }
  }

  /** Every lookup has an order to return its rows in. */
  lemma {:induction false} SortedFetchExists(
      r: Registry, target: Target, s: Scope, nullsFirst: bool) returns (rows: seq<Grant>)
    ensures IsSorted(r, target, s, nullsFirst, rows)
  {
    rows := Sort((set g | g in r.grants && Selects(r, target, s, g)), nullsFirst);
  }

  /**
   * PostgreSQL's default places nulls first: with an exact grant and two wildcards for one model, the lookup
   * returns a wildcard although the exact grant has the best priority.
   */
  lemma {:induction false} NullsFirstLosesExactGrant(s: Scope, modelId: string) returns (r: Registry, rows: seq<Grant>)
    requires IsCanonical(s.applicationId)
    ensures WellStored(r) && IsSorted(r, ForModel(modelId), s, true, rows) && HasExact(r, ForModel(modelId), s)
    ensures Pick(TakeTwo(rows), s).Some? && IsWildcard(Pick(TakeTwo(rows), s).value)
  {
    var tenant := Canonical(s.tenantId);
    var exact := Grant("0", modelId, tenant, Some(s.applicationId), Some(s.applicationType), None, 0, 0, true, false,
      None);
    var wild := exact.(id := "1", applicationId := None, applicationType := None, priority := 1);
    var wild' := wild.(id := "2", priority := 2);
    r := Registry({exact, wild, wild'}, map[modelId := Model(modelId, "m", true, false)]);
    rows := [wild, wild', exact];
    assert Selects(r, ForModel(modelId), s, exact) && IsExact(exact, s);
    assert TakeTwo(rows) == [wild, wild'];
    PickOfTwo(TakeTwo(rows), s);
  }

  // ---- Gate, routing and listing ----

  ghost predicate HasWildcard(r: Registry, target: Target, s: Scope) {
    exists g :: Selects(r, target, s, g) && IsWildcard(g)
  }

  ghost predicate AtMostOneExact(r: Registry, target: Target, s: Scope) {
    forall g, h :: Selects(r, target, s, g) && Selects(r, target, s, h) && IsExact(g, s) && IsExact(h, s) ==> g == h
  }

  /**
   * What it takes for a lookup to succeed. The comparison of `find` never matches an id that is not spelled as stored,
   * so that only a wildcard can help, if the exact grants leave room for it among the first two rows.
   */
  ghost predicate GateOpens(r: Registry, target: Target, s: Scope, nullsFirst: bool) {
    if IsCanonical(s.applicationId) then exists g :: Selects(r, target, s, g)
    else HasWildcard(r, target, s) && (nullsFirst || AtMostOneExact(r, target, s))
  }

  lemma {:induction false} FirstTwoSelected(
      r: Registry, target: Target, s: Scope, nullsFirst: bool, rows: seq<Grant>, two: seq<Grant>)
    requires IsSorted(r, target, s, nullsFirst, rows) && two == TakeTwo(rows)
    ensures forall i :: 0 <= i < |two| ==> two[i] == rows[i] && Selects(r, target, s, two[i])
    ensures forall g :: g in two ==> Selects(r, target, s, g)
  {
    forall i | 0 <= i < |two| ensures two[i] == rows[i] && Selects(r, target, s, rows[i]) {
      assert rows[i] in rows;
    }
  }

  /** Where a wildcard stands among the first two rows. */
  lemma {:induction false} WildcardRow(r: Registry, target: Target, s: Scope, nullsFirst: bool, rows: seq<Grant>)
    requires IsSorted(r, target, s, nullsFirst, rows)
    ensures (exists i :: 0 <= i < |TakeTwo(rows)| && IsWildcard(TakeTwo(rows)[i])) <==>
            HasWildcard(r, target, s) && (nullsFirst || AtMostOneExact(r, target, s))
  {
    var two := TakeTwo(rows);
    FirstTwoSelected(r, target, s, nullsFirst, rows, two);
    if w :| Selects(r, target, s, w) && IsWildcard(w) {
      var j :| 0 <= j < |rows| && rows[j] == w;
      assert j > 0 ==> InOrder(rows[0], rows[j], nullsFirst);
      if AtMostOneExact(r, target, s) {
        assert |two| > 1 ==> two[0] != two[1];
        assert IsWildcard(two[0]) || (|two| > 1 && IsWildcard(two[1]));
      }
    }
    if g, h :| Selects(r, target, s, g) && Selects(r, target, s, h) && IsExact(g, s) && IsExact(h, s) && g != h {
      ExactRowsFirst(r, target, s, nullsFirst, rows, g, h);
    }
  }

  /** With nulls last, two exact grants fill the first two rows. */
  lemma {:induction false} ExactRowsFirst(
      r: Registry, target: Target, s: Scope, nullsFirst: bool, rows: seq<Grant>, g: Grant, h: Grant)
    requires IsSorted(r, target, s, nullsFirst, rows) && g != h
    requires Selects(r, target, s, g) && Selects(r, target, s, h) && IsExact(g, s) && IsExact(h, s)
    ensures !nullsFirst ==> |rows| >= 2 && IsExact(rows[0], s) && IsExact(rows[1], s)
  {
    var i :| 0 <= i < |rows| && rows[i] == g;
    var k :| 0 <= k < |rows| && rows[k] == h;
    var last := if i < k then k else i;
    assert InOrder(rows[0], rows[last], nullsFirst) && (last > 1 ==> InOrder(rows[1], rows[last], nullsFirst));
    assert rows[0] in rows && rows[1] in rows;
  }

  /** The gate opens exactly when a live grant matches in the way the spelling of the application id allows. */
  lemma {:induction false} GateOpensIffGranted(
      r: Registry, target: Target, s: Scope, nullsFirst: bool, rows: seq<Grant>)
    requires WellStored(r) && IsSorted(r, target, s, nullsFirst, rows)
    ensures Pick(TakeTwo(rows), s).Some? <==> GateOpens(r, target, s, nullsFirst)
  {
    var two := TakeTwo(rows);
    FirstTwoSelected(r, target, s, nullsFirst, rows, two);
    PickOfTwo(two, s);
    WildcardRow(r, target, s, nullsFirst, rows);
    if g :| Selects(r, target, s, g) {
      assert g in rows;
    }
  }

  /** findModelById. */
  function ModelById(r: Registry, id: string): Option<Model> {
    if id in r.models && !r.models[id].isDeleted then Some(r.models[id]) else None
  }

  /** findModelCodeForTaskProfile. */
  function RoutedCode(r: Registry, picked: Option<Grant>): Option<string> {
    if picked.None? then None
    else
      var m := ModelById(r, picked.value.modelId);
      if m.None? then None else Some(m.value.modelCode)
  }

  /** findActiveModelByCode. */
  ghost predicate IsActiveWithCode(r: Registry, code: string, id: string) {
    IsActiveModel(r, id) && r.models[id].modelCode == code
  }

  /**
   * A model chosen by task profile passes the gate of the same scope, except that an application id not spelled as
   * stored is refused when nulls sort last and two exact grants crowd out the wildcard.
   */
  lemma {:induction false} RoutedModelPassesGate(
      r: Registry, profile: string, s: Scope, nullsFirst: bool, routing: seq<Grant>, id: string, gate: seq<Grant>)
    requires WellStored(r) && IsSorted(r, ForTaskProfile(profile), s, nullsFirst, routing)
    requires var code := RoutedCode(r, Pick(TakeTwo(routing), s)); code.Some? && IsActiveWithCode(r, code.value, id)
    requires IsSorted(r, ForModel(id), s, nullsFirst, gate)
    ensures Pick(TakeTwo(gate), s).Some? <==>
            IsCanonical(s.applicationId) || nullsFirst || AtMostOneExact(r, ForModel(id), s)
  {
    var g := Pick(TakeTwo(routing), s).value;
    PickIsSelected(r, ForTaskProfile(profile), s, nullsFirst, routing);
    assert Selects(r, ForModel(id), s, g);
    if !IsCanonical(s.applicationId) {
      var two := TakeTwo(routing);
      FirstTwoSelected(r, ForTaskProfile(profile), s, nullsFirst, routing, two);
      PickOfTwo(two, s);
      assert IsWildcard(g);
    }
    GateOpensIffGranted(r, ForModel(id), s, nullsFirst, gate);
  }

  /** Routing finds a code exactly when its lookup opens; the code is then that of an active model. */
  lemma {:induction false} RoutingFindsACode(
      r: Registry, profile: string, s: Scope, nullsFirst: bool, rows: seq<Grant>)
    requires WellStored(r) && IsSorted(r, ForTaskProfile(profile), s, nullsFirst, rows)
    ensures var code := RoutedCode(r, Pick(TakeTwo(rows), s));
            && (code.Some? <==> GateOpens(r, ForTaskProfile(profile), s, nullsFirst))
            && (code.Some? ==> exists id :: IsActiveWithCode(r, code.value, id))
  {
    GateOpensIffGranted(r, ForTaskProfile(profile), s, nullsFirst, rows);
    var picked := Pick(TakeTwo(rows), s);
    if picked.Some? {
      PickIsSelected(r, ForTaskProfile(profile), s, nullsFirst, rows);
      assert IsActiveWithCode(r, RoutedCode(r, picked).value, picked.value.modelId);
    }
  }

  lemma {:induction false} PickIsSelected(r: Registry, target: Target, s: Scope, nullsFirst: bool, rows: seq<Grant>)
    requires IsSorted(r, target, s, nullsFirst, rows) && Pick(TakeTwo(rows), s).Some?
    ensures Selects(r, target, s, Pick(TakeTwo(rows), s).value)
  {
    FindsMember(TakeTwo(rows), s);
  }

  lemma {:induction false} FindsMember(rows: seq<Grant>, s: Scope)
    ensures FindExact(rows, s).Some? ==> FindExact(rows, s).value in rows
    ensures FindWildcard(rows).Some? ==> FindWildcard(rows).value in rows
  {
    if rows != [] {
      FindsMember(rows[1..], s);
    }
  }

  /** listGrantedModels' `where` clause; an absent application id lifts the scope, an absent type is not compared. */
  predicate Lists(
      r: Registry, tenantId: string, applicationId: Option<string>, applicationType: Option<string>, now: int,
      g: Grant)
  {
    && g in r.grants && g.tenantId == Canonical(tenantId) && IsLive(g, now) && IsActiveModel(r, g.modelId)
    && (applicationId.GetOr("") == ""
        || (g.applicationId == Some(Canonical(applicationId.value))
          && (applicationType.None? || g.applicationType == applicationType))
        || IsWildcard(g))
  }

  /** Distinct ids in order of appearance, as a JavaScript Set keeps them. */
  function DistinctModelIds(rows: seq<Grant>): (ids: seq<string>)
    ensures forall i, j :: 0 <= i < j < |ids| ==> ids[i] != ids[j]
    ensures forall id :: id in ids <==> exists g :: g in rows && g.modelId == id
  {
    if rows == [] then []
    else
      var init, last := rows[..|rows| - 1], rows[|rows| - 1];
      assert rows == init + [last];
      var ids := DistinctModelIds(init);
      if last.modelId in ids then ids else ids + [last.modelId]
  }

  function PresentModels(r: Registry, ids: seq<string>): seq<Model> {
    if ids == [] then []
    else
      var m := ModelById(r, ids[0]);
      (if m.Some? then [m.value] else []) + PresentModels(r, ids[1..])
  }

  function ListGrantedModels(r: Registry, rows: seq<Grant>): seq<Model> {
    PresentModels(r, DistinctModelIds(rows))
  }

  lemma {:induction false} PresentModelsMembers(r: Registry, ids: seq<string>)
    requires forall id :: id in r.models ==> r.models[id].id == id
    requires forall i, j :: 0 <= i < j < |ids| ==> ids[i] != ids[j]
    ensures forall m :: m in PresentModels(r, ids) <==> m.id in ids && ModelById(r, m.id) == Some(m)
    ensures forall i, j :: 0 <= i < j < |PresentModels(r, ids)| ==> PresentModels(r, ids)[i] != PresentModels(r, ids)[j]
  {
    if ids != [] {
      PresentModelsMembers(r, ids[1..]);
      assert ids == [ids[0]] + ids[1..];
    }
  }

  /** With an explicit application id and type, the listing is each active model some live grant is about, once. */
  lemma {:induction false} ListingIsTheGrants(r: Registry, s: Scope, rows: seq<Grant>)
    requires WellStored(r) && s.applicationId != ""
    requires forall g :: g in rows <==> Lists(r, s.tenantId, Some(s.applicationId), Some(s.applicationType), s.now, g)
    ensures var models := ListGrantedModels(r, rows);
            && (forall i, j :: 0 <= i < j < |models| ==> models[i] != models[j])
            && forall m :: m in models <==>
                 IsActiveModel(r, m.id) && r.models[m.id] == m && exists g :: Selects(r, ForModel(m.id), s, g)
  {
    var ids := DistinctModelIds(rows);
    PresentModelsMembers(r, ids);
    forall m: Model ensures m.id in ids && ModelById(r, m.id) == Some(m) <==>
                     IsActiveModel(r, m.id) && r.models[m.id] == m && exists g :: Selects(r, ForModel(m.id), s, g)
    {
      if m.id in ids {
        var g :| g in rows && g.modelId == m.id;
        assert Selects(r, ForModel(m.id), s, g);
      }
      if g :| IsActiveModel(r, m.id) && Selects(r, ForModel(m.id), s, g) {
        assert g in rows;
      }
    }
  }

  /** The answer of the gate for each model, given an order of its rows. */
  predicate GateGrants(gate: string -> seq<Grant>, s: Scope, id: string) {
    Pick(TakeTwo(gate(id)), s).Some?
  }

  /** A listed model that the gate refuses: no wildcard can stand in for the exact grants it does not recognise. */
  ghost predicate ListedInVain(r: Registry, s: Scope, nullsFirst: bool, id: string) {
    && IsActiveModel(r, id) && !IsCanonical(s.applicationId) && (exists g :: Selects(r, ForModel(id), s, g))
    && !(HasWildcard(r, ForModel(id), s) && (nullsFirst || AtMostOneExact(r, ForModel(id), s)))
  }

  /**
   * The listing holds every active model that the gate grants, and beside those exactly the models listed in vain; so
   * the two agree for every id spelled as stored.
   */
  lemma {:induction false} ListingIsTheGate(
      r: Registry, s: Scope, nullsFirst: bool, rows: seq<Grant>, gate: string -> seq<Grant>)
    requires WellStored(r) && s.applicationId != ""
    requires forall g :: g in rows <==> Lists(r, s.tenantId, Some(s.applicationId), Some(s.applicationType), s.now, g)
    requires forall id :: IsSorted(r, ForModel(id), s, nullsFirst, gate(id))
    ensures var models := ListGrantedModels(r, rows);
            && (forall i, j :: 0 <= i < j < |models| ==> models[i] != models[j])
            && (forall m :: m in models <==>
                  IsActiveModel(r, m.id) && r.models[m.id] == m
                  && (GateGrants(gate, s, m.id) || ListedInVain(r, s, nullsFirst, m.id)))
            && (forall id :: !(GateGrants(gate, s, id) && ListedInVain(r, s, nullsFirst, id)))
  {
    ListingIsTheGrants(r, s, rows);
    forall id ensures GateGrants(gate, s, id) <==> GateOpens(r, ForModel(id), s, nullsFirst) {
      assert IsSorted(r, ForModel(id), s, nullsFirst, gate(id));
      GateOpensIffGranted(r, ForModel(id), s, nullsFirst, gate(id));
    }
  }

  /** One exact grant, and an application id that is not spelled as stored: listed, and refused by the gate. */
  lemma {:induction false} OtherSpellingIsListedInVain(s: Scope, nullsFirst: bool, modelId: string)
    returns (r: Registry, rows: seq<Grant>)
    requires !IsCanonical(s.applicationId)
    ensures WellStored(r) && IsSorted(r, ForModel(modelId), s, nullsFirst, rows) && |rows| == 1
    ensures Lists(r, s.tenantId, Some(s.applicationId), Some(s.applicationType), s.now, rows[0])
    ensures ListedInVain(r, s, nullsFirst, modelId) && Pick(TakeTwo(rows), s).None?
  {
    CanonicalTwice(s.applicationId);
    var exact := Grant("0", modelId, Canonical(s.tenantId), Some(Canonical(s.applicationId)), Some(s.applicationType),
                       None, 0, 0, true, false, None);
    r := Registry({exact}, map[modelId := Model(modelId, "m", true, false)]);
    rows := [exact];
    assert Selects(r, ForModel(modelId), s, exact);
    GateOpensIffGranted(r, ForModel(modelId), s, nullsFirst, rows);
  }

  /**
   * Nulls last, and an id not spelled as stored: a wildcard routes to the model, and its exact grants hide it from the
   * gate.
   */
  lemma {:induction false} OtherSpellingIsRoutedInVain(s: Scope, profile: string, modelId: string)
    returns (r: Registry, routing: seq<Grant>, gate: seq<Grant>)
    requires !IsCanonical(s.applicationId)
    ensures WellStored(r)
    ensures IsSorted(r, ForTaskProfile(profile), s, false, routing) && IsSorted(r, ForModel(modelId), s, false, gate)
    ensures var code := RoutedCode(r, Pick(TakeTwo(routing), s)); code.Some? && IsActiveWithCode(r, code.value, modelId)
    ensures Pick(TakeTwo(gate), s).None?
  {
    CanonicalTwice(s.applicationId);
    var wild := Grant("0", modelId, Canonical(s.tenantId), None, None, Some(profile), 0, 0, true, false, None);
    var exact := wild.(
      id := "1", applicationId := Some(Canonical(s.applicationId)), applicationType := Some(s.applicationType),
      taskProfile := None);
    var exact' := exact.(id := "2");
    r := Registry({wild, exact, exact'}, map[modelId := Model(modelId, "m", true, false)]);
    routing, gate := [wild], [exact, exact', wild];
    PickOfTwo(TakeTwo(routing), s);
    PickOfTwo(TakeTwo(gate), s);
  }

  // ---- The rows a lookup is about, field by field ----

  predicate IsLiveRow(g: Grant, s: Scope) {
    && g.tenantId == Canonical(s.tenantId) && g.isActive && !g.isDeleted
    && (g.expiresAt.Some? ==> g.expiresAt.value > s.now)
    && ((g.applicationId == Some(Canonical(s.applicationId)) && g.applicationType == Some(s.applicationType))
        || (g.applicationId.None? && g.applicationType.None?))
  }

  /**
   * A grant is looked at exactly when it is live, of the tenant, for the application or for all, and about the target.
   */
  lemma {:induction false} SelectedRows(r: Registry, s: Scope, g: Grant, modelId: string, profile: string)
    ensures Selects(r, ForModel(modelId), s, g) <==> g in r.grants && IsLiveRow(g, s) && g.modelId == modelId
    ensures Selects(r, ForTaskProfile(profile), s, g) <==>
            && g in r.grants && IsLiveRow(g, s) && g.taskProfile == Some(profile)
            && g.modelId in r.models && r.models[g.modelId].isActive && !r.models[g.modelId].isDeleted
  {}

  /** The best grant of its kind has the lowest priority number, and of those it is the newest. */
  lemma {:induction false} BestIsLowestAndNewest(r: Registry, target: Target, s: Scope, g: Grant, h: Grant, exact: bool)
    requires IsBest(r, target, s, g, exact) && Selects(r, target, s, h) && h.applicationId.Some? == exact
    ensures g.applicationId.Some? == exact && g.priority <= h.priority
    ensures g.priority == h.priority ==> g.createdAt >= h.createdAt
  {}

  /** Ids that are no uuid are refused, the tenant's first. */
  lemma {:induction false} LookupsRefuse(sorted: seq<Grant>, s: Scope)
    ensures FindGrant(sorted, s) == Failure(InvalidTenantId) <==> !IsUuid(s.tenantId)
    ensures FindGrant(sorted, s) == Failure(InvalidApplicationId) <==> IsUuid(s.tenantId) && !IsUuid(s.applicationId)
  {}
}
