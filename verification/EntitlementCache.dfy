/**
 * The entitlement client's cache (service/src/platform/platform-entitlement.client.ts). A lookup that misses
 * waits for the platform, so calls interleave: each is an `Asked` event and, unless answered at once, a later
 * `Replied` event.
 */
module EntitlementCache {
  import opened Sequences
  import opened Wrappers

  datatype Pool = Pool(remaining: real)

  datatype View = View(quotaPools: Option<seq<Pool>>)

  datatype Outcome = Resolved(view: View) | Unreachable | NotConfigured

  /** What came of the request: a decoded answer, or any of its failures. */
  datatype Reply = Answered(view: View) | Failed

  datatype Entry = Entry(outcome: Outcome, expiresAt: real)

  type Cache = map<string, Entry>

  const DEFAULT_CACHE_TTL_MS := 30000.0

  /** The configured lifetime; None stands for anything that is not a finite number. */
  function TtlOf(raw: Option<real>): (ttl: real)
    ensures ttl >= 0.0
    ensures raw.Some? && raw.value >= 0.0 ==> Some(ttl) == raw
    ensures raw.None? || raw.value < 0.0 ==> ttl == 30000.0
  {
    if raw.Some? && raw.value >= 0.0 then raw.value else DEFAULT_CACHE_TTL_MS
  }

  datatype Settings = Settings(configured: bool, rawTtl: Option<real>) {
    function Ttl(): real { TtlOf(rawTtl) }
  }

  /** What a lookup answers without asking the platform. */
  function Found(settings: Settings, cache: Cache, ws: string, now: real): Option<Outcome> {
    if !settings.configured then Some(NotConfigured)
    else if ws in cache && cache[ws].expiresAt > now then Some(cache[ws].outcome)
    else None
  }

  function Received(reply: Reply): Outcome {
    match reply
    case Answered(view) => Resolved(view)
    case Failed => Unreachable
  }

  function Remembered(settings: Settings, cache: Cache, ws: string, reply: Reply, now: real): Cache {
    if reply.Answered? then cache[ws := Entry(Resolved(reply.view), now + settings.Ttl())] else cache
  }

  class PlatformEntitlementClient {
    const settings: Settings
    var cache: Cache

    constructor (settings: Settings)
      ensures this.settings == settings && cache == map[]
    {
      this.settings := settings;
      cache := map[];
    }

    /** `resolve` up to its request; None means that the request goes out. */
    method BeginResolve(ws: string, now: real) returns (found: Option<Outcome>)
      ensures found == Found(settings, cache, ws, now)
      ensures found.None? <==> settings.configured && (ws !in cache || cache[ws].expiresAt <= now)
    {
      if !settings.configured {
        return Some(NotConfigured);
      }
      if ws in cache && cache[ws].expiresAt > now {
        return Some(cache[ws].outcome);
      }
      return None;
    }

    /** `resolve` from the reply on. */
    method FinishResolve(ws: string, reply: Reply, now: real) returns (outcome: Outcome)
      modifies this`cache
      ensures outcome == Received(reply)
      ensures cache == Remembered(settings, old(cache), ws, reply, now)
      ensures outcome.Resolved? ==> ws in cache && cache[ws] == Entry(outcome, now + settings.Ttl())
      ensures !outcome.Resolved? ==> cache == old(cache)
      ensures forall w :: w != ws ==> (w in cache <==> w in old(cache)) && (w in cache ==> cache[w] == old(cache)[w])
    {
      match reply
      case Answered(view) =>
        outcome := Resolved(view);
        cache := cache[ws := Entry(outcome, now + settings.Ttl())];
      case Failed =>
        outcome := Unreachable;
    }
  }

  // ---- Histories of interleaved calls ----

  datatype Event =
    | Asked(call: nat, ws: string, at: real)
    | Replied(call: nat, ws: string, at: real, reply: Reply)

  type History = seq<Event>

  function CacheAfter(settings: Settings, h: History): Cache {
    if h == [] then map[]
    else
      var cache, e := CacheAfter(settings, h[..|h| - 1]), h[|h| - 1];
      if e.Asked? then cache else Remembered(settings, cache, e.ws, e.reply, e.at)
  }

  /** The answer that event k gives its caller, if any. */
  function AnswerAt(settings: Settings, h: History, k: nat): Option<Outcome>
    requires k < |h|
  {
    match h[k]
    case Asked(_, ws, at) => Found(settings, CacheAfter(settings, h[..k]), ws, at)
    case Replied(_, _, _, reply) => Some(Received(reply))
  }

  /** Call identities are fresh, and a reply answers a call that asked about that workspace and is still waiting. */
  ghost predicate Legal(settings: Settings, h: History) {
    && (forall i, j :: 0 <= i < j < |h| && h[i].Asked? && h[j].Asked? ==> h[i].call != h[j].call)
    && (forall j :: 0 <= j < |h| && h[j].Replied? ==> exists i :: WaitsFor(settings, h, i, j))
    && (forall i, j :: 0 <= i < j < |h| && h[i].Replied? && h[j].Replied? ==> h[i].call != h[j].call)
  }

  ghost predicate WaitsFor(settings: Settings, h: History, i: int, j: int)
    requires j < |h|
  {
    && 0 <= i < j && h[i].Asked? && h[i].call == h[j].call && h[i].ws == h[j].ws
    && AnswerAt(settings, h, i).None?
  }

  predicate Monotone(h: History) {
    forall i, j :: 0 <= i < j < |h| ==> h[i].at <= h[j].at
  }

  predicate IsSuccess(e: Event, ws: string) {
    e.Replied? && e.reply.Answered? && e.ws == ws
  }

  /** Event i is the latest answer about ws among the first n. */
  predicate IsLatest(h: History, n: nat, ws: string, i: int)
    requires n <= |h|
  {
    0 <= i < n && IsSuccess(h[i], ws) && forall j :: i < j < n ==> !IsSuccess(h[j], ws)
  }

  /** The cache is an abbreviation of the history: the latest answer about each workspace, dated. */
  lemma {:induction false} CacheIsLatestAnswer(settings: Settings, h: History, n: nat, ws: string)
    requires n <= |h|
    ensures var cache := CacheAfter(settings, h[..n]);
            && (ws in cache <==> exists i :: IsLatest(h, n, ws, i))
            && forall i :: IsLatest(h, n, ws, i) ==>
                 ws in cache && cache[ws] == Entry(Resolved(h[i].reply.view), h[i].at + settings.Ttl())
  {
    if n > 0 {
      assert h[..n][..n - 1] == h[..n - 1];
      CacheIsLatestAnswer(settings, h, n - 1, ws);
      if IsSuccess(h[n - 1], ws) {
        assert IsLatest(h, n, ws, n - 1);
      } else {
        var m := n - 1;
        forall i: int | IsLatest(h, n, ws, i) ensures IsLatest(h, m, ws, i) {
        }
        if i :| IsLatest(h, m, ws, i) {
          assert IsLatest(h, n, ws, i);
        }
      }
    }
  }

  /** Whether event i is why a lookup at event k is answered from memory. */
  predicate Serves(settings: Settings, h: History, i: int, k: nat)
    requires k < |h|
  {
    IsLatest(h, k, h[k].ws, i) && h[k].at < h[i].at + settings.Ttl()
  }

  /** A lookup is answered from memory exactly while the latest answer is younger than the lifetime. */
  lemma {:induction false} HitIffFresh(settings: Settings, h: History, k: nat)
    requires k < |h| && h[k].Asked? && settings.configured
    ensures AnswerAt(settings, h, k).Some? <==> exists i :: Serves(settings, h, i, k)
    ensures forall i :: Serves(settings, h, i, k) ==> AnswerAt(settings, h, k) == Some(Resolved(h[i].reply.view))
  {
    CacheIsLatestAnswer(settings, h, k, h[k].ws);
    if i :| IsLatest(h, k, h[k].ws, i) {
      assert Serves(settings, h, i, k) <==> AnswerAt(settings, h, k).Some?;
    }
  }

  /**
   * Whatever the interleaving: a caller hears of a failure only from its own request, and any answer it is given is its
   * own reply, or one to a call about the same workspace that arrived less than a lifetime ago and that no later answer
   * replaced.
   */
  lemma {:induction false} BoundedStaleness(settings: Settings, h: History, k: nat)
    requires Legal(settings, h) && Monotone(h) && k < |h| && AnswerAt(settings, h, k).Some?
    ensures var outcome := AnswerAt(settings, h, k).value;
            && (outcome.NotConfigured? <==> !settings.configured)
            && (outcome.Unreachable? <==> h[k].Replied? && h[k].reply.Failed?)
            && (outcome.Resolved? ==> exists i :: AnswersFrom(settings, h, i, k) && h[i].reply.view == outcome.view)
  {
    if h[k].Replied? {
      var i :| WaitsFor(settings, h, i, k);
      if IsSuccess(h[k], h[k].ws) {
        assert AnswersFrom(settings, h, k, k);
      }
    } else if settings.configured {
      HitIffFresh(settings, h, k);
      var i :| Serves(settings, h, i, k);
      assert AnswersFrom(settings, h, i, k);
    }
  }

  predicate AnswersFrom(settings: Settings, h: History, i: int, k: nat)
    requires k < |h|
  {
    && 0 <= i <= k && IsSuccess(h[i], h[k].ws)
    && (i == k || (0.0 <= h[k].at - h[i].at < settings.Ttl() && forall j :: i < j < k ==> !IsSuccess(h[j], h[k].ws)))
  }

  /** Replies i and j bring answers about ws, and i's request went out before j's. */
  ghost predicate AskedBefore(settings: Settings, h: History, ws: string, i: int, j: int) {
    && 0 <= i < |h| && 0 <= j < |h| && IsSuccess(h[i], ws) && IsSuccess(h[j], ws)
    && exists a, b :: WaitsFor(settings, h, a, i) && WaitsFor(settings, h, b, j) && a < b
  }

  /** Answers about ws arrive in the order in which they were asked for. */
  ghost predicate ArriveInOrder(settings: Settings, h: History, ws: string) {
    forall i, j :: 0 <= j < i < |h| ==> !AskedBefore(settings, h, ws, i, j)
  }

  /** Whenever the cache holds reply i about ws, no answer to a later request had arrived by then. */
  ghost predicate NeverReplacesNewer(settings: Settings, h: History, ws: string) {
    forall n, i, j {:trigger IsLatest(h, n, ws, i), AskedBefore(settings, h, ws, i, j)} ::
      0 <= n <= |h| && IsLatest(h, n, ws, i) && 0 <= j < n ==> !AskedBefore(settings, h, ws, i, j)
  }

  /** The cache never falls back to the answer of an older request exactly when answers arrive in the order asked. */
  lemma {:induction false} KeepsNewestIffInOrder(settings: Settings, h: History, ws: string)
    requires Legal(settings, h)
    ensures NeverReplacesNewer(settings, h, ws) <==> ArriveInOrder(settings, h, ws)
  {
    if NeverReplacesNewer(settings, h, ws) {
      forall i, j | 0 <= j < i < |h| ensures !AskedBefore(settings, h, ws, i, j) {
        assert IsSuccess(h[i], ws) ==> IsLatest(h, i + 1, ws, i);
      }
    }
    if ArriveInOrder(settings, h, ws) {
      forall n, i, j | 0 <= n <= |h| && IsLatest(h, n, ws, i) && 0 <= j < n
        ensures !AskedBefore(settings, h, ws, i, j)
      {
        CachedIsNewest(settings, h, ws, n, i, j);
      }
    }
  }

  lemma {:induction false} CachedIsNewest(settings: Settings, h: History, ws: string, n: nat, i: int, j: int)
    requires Legal(settings, h) && ArriveInOrder(settings, h, ws)
    requires n <= |h| && IsLatest(h, n, ws, i) && 0 <= j < n
    ensures !AskedBefore(settings, h, ws, i, j)
  {
    if i == j {
      OneRequestEach(settings, h, i);
    }
  }

  /** A reply answers one request. */
  lemma {:induction false} OneRequestEach(settings: Settings, h: History, i: int)
    requires Legal(settings, h) && 0 <= i < |h|
    ensures forall a, b :: WaitsFor(settings, h, a, i) && WaitsFor(settings, h, b, i) ==> a == b
  {
    forall a, b | WaitsFor(settings, h, a, i) && WaitsFor(settings, h, b, i) ensures a == b {
      assert h[a].call == h[b].call;
    }
  }

  /** An older request that answers late replaces the answer of a newer one. */
  lemma {:induction false} LateAnswerReplacesNewer(
      settings: Settings, ws: string, older: View, newer: View) returns (h: History)
    requires settings.configured && settings.Ttl() > 0.0
    ensures Legal(settings, h) && Monotone(h) && |h| == 5
    ensures h[0] == Asked(0, ws, 0.0) && h[1] == Asked(1, ws, 0.0)
    ensures h[2] == Replied(1, ws, 0.0, Answered(newer)) && h[3] == Replied(0, ws, 0.0, Answered(older))
    ensures h[4].Asked? && AnswerAt(settings, h, 4) == Some(Resolved(older))
  {
    h := [Asked(0, ws, 0.0), Asked(1, ws, 0.0), Replied(1, ws, 0.0, Answered(newer)),
      Replied(0, ws, 0.0, Answered(older)), Asked(2, ws, 0.0)];
    HitIffFresh(settings, h, 0);
    HitIffFresh(settings, h, 1);
    assert WaitsFor(settings, h, 1, 2) && WaitsFor(settings, h, 0, 3);
    HitIffFresh(settings, h, 4);
    assert Serves(settings, h, 3, 4);
  }
}
