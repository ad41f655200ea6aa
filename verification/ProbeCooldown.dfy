/** The cooldown between probes of one model (service/src/runtime/model-probe.service.ts). */
module ProbeCooldown {
  import opened Wrappers

  const PROBE_COOLDOWN_MS := 10000

  type Starts = map<string, int>

  function Kept(starts: Starts, now: int): Starts {
    map id | id in starts && now - starts[id] < PROBE_COOLDOWN_MS :: starts[id]
  }

  /** How long to wait before probing again; None lets the probe through. */
  function RetryAfter(starts: Starts, modelId: string, now: int): Option<int> {
    if modelId in starts && now - starts[modelId] < PROBE_COOLDOWN_MS
    then Some(PROBE_COOLDOWN_MS - (now - starts[modelId]))
    else None
  }

  function Noted(starts: Starts, modelId: string, now: int): Starts {
    if RetryAfter(starts, modelId, now).Some? then starts else Kept(starts[modelId := now], now)
  }

  class ModelProbeService {
    var lastProbeAt: Starts

    constructor ()
      ensures lastProbeAt == map[]
    {
      lastProbeAt := map[];
    }

    method AssertNotCoolingDown(modelId: string, now: int) returns (retryAfter: Option<int>)
      modifies this
      ensures retryAfter == RetryAfter(old(lastProbeAt), modelId, now)
      ensures lastProbeAt == Noted(old(lastProbeAt), modelId, now)
    {
      if modelId in lastProbeAt && now - lastProbeAt[modelId] < PROBE_COOLDOWN_MS {
        return Some(PROBE_COOLDOWN_MS - (now - lastProbeAt[modelId]));
      }
      lastProbeAt := lastProbeAt[modelId := now];
      PruneCooldowns(now);
      retryAfter := None;
    }

    method PruneCooldowns(now: int)
      modifies this
      ensures lastProbeAt == Kept(old(lastProbeAt), now)
    {
      var pending := lastProbeAt.Keys;
      while pending != {}
        invariant pending <= lastProbeAt.Keys <= old(lastProbeAt).Keys
        invariant forall id :: id in lastProbeAt ==> lastProbeAt[id] == old(lastProbeAt)[id]
        invariant forall id :: id in old(lastProbeAt) && id !in pending ==>
          (id in lastProbeAt <==> now - old(lastProbeAt)[id] < PROBE_COOLDOWN_MS)
        decreases |pending|
      {
        var id :| id in pending;
        if now - lastProbeAt[id] >= PROBE_COOLDOWN_MS {
          lastProbeAt := lastProbeAt - {id};
        }
        pending := pending - {id};
      }
    }
  }

  // ---- The full history ----

  datatype Probe = Probe(modelId: string, at: int)

  function StartsAfter(h: seq<Probe>): Starts {
    if h == [] then map[] else Noted(StartsAfter(h[..|h| - 1]), h[|h| - 1].modelId, h[|h| - 1].at)
  }

  predicate Monotone(h: seq<Probe>) {
    forall i, j :: 0 <= i < j < |h| ==> h[i].at <= h[j].at
  }

  /** The rule over the full history: no accepted start of the same model within the window. */
  predicate Accepted(h: seq<Probe>, k: nat)
    requires k < |h|
    decreases k
  {
    forall j: nat | j < k :: !(Accepted(h, j) && h[j].modelId == h[k].modelId && h[k].at - h[j].at < PROBE_COOLDOWN_MS)
  }

  /** The last accepted start of a model among the first n probes. */
  function LastStart(h: seq<Probe>, n: nat, modelId: string): (last: Option<nat>)
    requires n <= |h|
    ensures last.Some? ==> last.value < n && h[last.value].modelId == modelId && Accepted(h, last.value)
    ensures forall j: nat :: j < n && h[j].modelId == modelId && Accepted(h, j) ==> last.Some? && j <= last.value
  {
    if n == 0 then None
    else if h[n - 1].modelId == modelId && Accepted(h, n - 1) then Some(n - 1)
    else LastStart(h, n - 1, modelId)
  }

  function Wait(h: seq<Probe>, k: nat): Option<int>
    requires k < |h|
  {
    RetryAfter(StartsAfter(h[..k]), h[k].modelId, h[k].at)
  }

  predicate InWindow(h: seq<Probe>, start: Option<nat>, now: int)
    requires start.Some? ==> start.value < |h|
  {
    start.Some? && now - h[start.value].at < PROBE_COOLDOWN_MS
  }

  /** The map holds last accepted starts only, and every one that is inside the window of the latest probe. */
  ghost predicate Faithful(h: seq<Probe>, n: nat, starts: Starts)
    requires n <= |h|
  {
    && (forall id :: id in starts ==> LastStart(h, n, id).Some? && starts[id] == h[LastStart(h, n, id).value].at)
    && (n > 0 ==> forall id :: InWindow(h, LastStart(h, n, id), h[n - 1].at) ==> id in starts)
  }

  lemma {:induction false} MapDecides(h: seq<Probe>, k: nat)
    requires Monotone(h) && k < |h| && Faithful(h, k, StartsAfter(h[..k]))
    ensures Wait(h, k).None? <==> Accepted(h, k)
    ensures Wait(h, k).Some? <==> InWindow(h, LastStart(h, k, h[k].modelId), h[k].at)
    ensures Wait(h, k).Some? ==>
            Wait(h, k).value == PROBE_COOLDOWN_MS - (h[k].at - h[LastStart(h, k, h[k].modelId).value].at)
  {
    var last := LastStart(h, k, h[k].modelId);
    if last.Some? {
      assert h[last.value].at <= h[k - 1].at <= h[k].at;
      forall j: nat | j < k && h[j].modelId == h[k].modelId && Accepted(h, j) ensures h[j].at <= h[last.value].at {
      }
    }
  }

  lemma {:induction false} LastStartStep(h: seq<Probe>, n: nat, id: string, accepted: bool)
    requires n < |h| && accepted == Accepted(h, n)
    ensures LastStart(h, n + 1, id) == if h[n].modelId == id && accepted then Some(n) else LastStart(h, n, id)
  {
  }

  lemma {:induction false} FaithfulStep(h: seq<Probe>, n: nat, before: Starts, after: Starts)
    requires Monotone(h) && n < |h| && Faithful(h, n, before)
    requires after == Noted(before, h[n].modelId, h[n].at)
    requires RetryAfter(before, h[n].modelId, h[n].at).None? <==> Accepted(h, n)
    ensures Faithful(h, n + 1, after)
  {
    var accepted := RetryAfter(before, h[n].modelId, h[n].at).None?;
    forall id
      ensures id in after ==> LastStart(h, n + 1, id).Some? && after[id] == h[LastStart(h, n + 1, id).value].at
      ensures InWindow(h, LastStart(h, n + 1, id), h[n].at) ==> id in after
    {
      LastStartStep(h, n, id, accepted);
      if n > 0 && LastStart(h, n + 1, id) == LastStart(h, n, id) && InWindow(h, LastStart(h, n, id), h[n].at) {
        assert h[n - 1].at <= h[n].at;
        assert InWindow(h, LastStart(h, n, id), h[n - 1].at);
      }
    }
  }

  lemma {:induction false} MapIsFaithful(h: seq<Probe>, n: nat)
    requires Monotone(h) && n <= |h|
    ensures Faithful(h, n, StartsAfter(h[..n]))
  {
    if n > 0 {
      MapIsFaithful(h, n - 1);
      MapDecides(h, n - 1);
      assert h[..n][..n - 1] == h[..n - 1];
      FaithfulStep(h, n - 1, StartsAfter(h[..n - 1]), StartsAfter(h[..n]));
    }
  }

  /**
   * The pruned map decides as the full history does, and asks a refused caller to wait until exactly the moment the
   * last accepted start leaves the window.
   */
  lemma {:induction false} CooldownIsTheHistory(h: seq<Probe>, k: nat)
    requires Monotone(h) && k < |h|
    ensures Wait(h, k).None? <==> Accepted(h, k)
    ensures Wait(h, k).Some? ==>
              && 0 < Wait(h, k).value <= 10000
              && LastStart(h, k, h[k].modelId).Some?
              && h[k].at + Wait(h, k).value == h[LastStart(h, k, h[k].modelId).value].at + PROBE_COOLDOWN_MS
  {
    MapIsFaithful(h, k);
    MapDecides(h, k);
  }

  /** Accepted starts of one model are at least the window apart. */
  lemma {:induction false} StartsAreSpaced(h: seq<Probe>, i: nat, j: nat)
    requires i < j < |h| && h[i].modelId == h[j].modelId && Wait(h, i).None? && Wait(h, j).None? && Monotone(h)
    ensures h[j].at - h[i].at >= 10000
  {
    CooldownIsTheHistory(h, i);
    CooldownIsTheHistory(h, j);
  }

  /** After an accepted probe the map holds exactly the last accepted starts that are inside the window. */
  lemma {:induction false} MapIsTheWindow(h: seq<Probe>, id: string)
    requires Monotone(h) && h != [] && Wait(h, |h| - 1).None?
    ensures var starts, last, now := StartsAfter(h), LastStart(h, |h|, id), h[|h| - 1].at;
            && (id in starts <==> InWindow(h, last, now))
            && (id in starts ==> starts[id] == h[last.value].at)
  {
    MapIsFaithful(h, |h|);
    assert h[..|h|] == h;
    var e := h[|h| - 1];
    assert StartsAfter(h) == Kept(StartsAfter(h[..|h| - 1])[e.modelId := e.at], e.at);
  }

  /**
   * A clock that steps back breaks both: pruning forgets a start that the window still covers, and the wait exceeds the
   * window.
   */
  lemma {:induction false} ClockStepsBack(a: string, b: string) returns (h: seq<Probe>)
    requires a != b
    ensures |h| == 4 && Wait(h, 2).None? && !Accepted(h, 2)
    ensures Wait(h, 3).Some? && Wait(h, 3).value > PROBE_COOLDOWN_MS
  {
    h := [Probe(a, 0), Probe(b, PROBE_COOLDOWN_MS), Probe(a, 5000), Probe(b, 0)];
    assert h[..3][..2] == h[..2] && h[..2][..1] == h[..1] && h[..1][..0] == [];
    assert Accepted(h, 0);
    assert StartsAfter(h[..1]) == map[a := 0];
    assert StartsAfter(h[..2]) == map[b := PROBE_COOLDOWN_MS];
  }
}
