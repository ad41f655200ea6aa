/**
 * The receiver at the end of an at-least-once, out-of-order channel: any number of handlers, advancing call
 * by call, crashing anywhere, never two at once on one workspace.
 */
module WebhookConvergence {
  import opened Columns
  import opened ProvisioningWebhook
  import opened Wrappers

  /** A delivery starts a handler under a fresh number; a crash or a reply removes it. */
  datatype Action = Start(handler: nat, event: Event) | Call(handler: nat) | Remove(handler: nat)

  datatype System = System(store: Store, handlers: map<nat, Handler>)

  const INITIAL := System(Store(map[], []), map[])

  function Step(s: System, a: Action): System {
    match a
    case Start(n, e) => s.(handlers := s.handlers[n := Handler(e, Received)])
    case Call(n) =>
      if n !in s.handlers then s
      else var (store, h) := Advance(s.store, s.handlers[n]); System(store, s.handlers[n := h])
    case Remove(n) => s.(handlers := map m | m in s.handlers && m != n :: s.handlers[m])
  }

  function Run(s: System, actions: seq<Action>): System
    decreases |actions|
  {
    if actions == [] then s else Run(Step(s, actions[0]), actions[1..])
  }

  predicate Busy(s: System, n: nat, workspaceId: string) {
    n in s.handlers && !s.handlers[n].stage.Finished? && s.handlers[n].event.workspaceId == workspaceId
  }

  /** Events of E are delivered under fresh numbers, and only to workspaces that no handler is busy with. */
  ghost predicate Serial(s: System, events: set<Event>, actions: seq<Action>)
    decreases |actions|
  {
    actions == [] ||
    (&& (actions[0].Start? ==>
           && actions[0].event in events && actions[0].handler !in s.handlers
           && forall n :: !Busy(s, n, actions[0].event.workspaceId))
     && Serial(Step(s, actions[0]), events, actions[1..]))
  }

  /** Distinct ids, and distinct sequence numbers within a workspace. */
  ghost predicate Distinct(events: set<Event>) {
    && (forall e, f :: e in events && f in events && e.id == f.id ==> e == f)
    && forall e, f :: e in events && f in events && e.workspaceId == f.workspaceId && e.seqNo == f.seqNo ==> e == f
  }

  // ---- The invariant ----

  ghost predicate LedgerHolds(store: Store, events: set<Event>) {
    && (forall d :: d in store.deliveries ==> IdFits(d.deliveryId))
    && (forall i, j :: 0 <= i < j < |store.deliveries| ==>
         store.deliveries[i].deliveryId != store.deliveries[j].deliveryId)
    && forall d :: d in store.deliveries ==> exists e :: e in events && d == DeliveryOf(e)
  }

  /** Every row is the state of some event, and at least as new as every recorded delivery. */
  ghost predicate RowsHold(store: Store, events: set<Event>) {
    && (forall w :: w in store.rows ==>
         exists e :: e in events && e.workspaceId == w && store.rows[w] == ProvisioningRow(e.status, e.seqNo))
    && forall d :: d in store.deliveries ==> d.workspaceId in store.rows && d.seqNo <= store.rows[d.workspaceId].seqNo
  }

  /** What a handler knows at each stage is still true of the store. */
  ghost predicate Knows(store: Store, h: Handler) {
    match h.stage
    case Received => true
    case NotSeen => !Delivered(store, h.event.id)
    case Ordered(current) => !Delivered(store, h.event.id) && current == RowOf(store, h.event.workspaceId)
    case Applied => !Delivered(store, h.event.id)
      && RowOf(store, h.event.workspaceId) == Some(ProvisioningRow(h.event.status, h.event.seqNo))
    case Finished(outcome) =>
      !outcome.LedgerConflict? && (outcome.LedgerRefused? <==> !IdFits(h.event.id))
      && (IdFits(h.event.id) ==> Delivered(store, h.event.id))
  }

  ghost predicate Inv(s: System, events: set<Event>) {
    && LedgerHolds(s.store, events) && RowsHold(s.store, events)
    && (forall n :: n in s.handlers ==> s.handlers[n].event in events && Knows(s.store, s.handlers[n]))
    && forall m, n, w :: Busy(s, m, w) && Busy(s, n, w) ==> m == n
  }

  lemma {:induction false} RecordKeeps(store: Store, e: Event, outcome: Outcome, events: set<Event>)
    requires LedgerHolds(store, events) && RowsHold(store, events) && e in events
    requires !Delivered(store, e.id) && RowOf(store, e.workspaceId).Some? && e.seqNo <= store.rows[e.workspaceId].seqNo
    ensures var (store', h) := Recorded(store, e, outcome);
            && store'.rows == store.rows
            && h == Handler(e, Finished(if IdFits(e.id) then outcome else LedgerRefused))
            && LedgerHolds(store', events) && RowsHold(store', events)
            && (forall id :: Delivered(store', id) <==> Delivered(store, id) || (id == e.id && IdFits(e.id)))
  {
    var store' := Recorded(store, e, outcome).0;
    if !IdFits(e.id) {
      return;
    }
    assert store'.deliveries == store.deliveries + [DeliveryOf(e)];
    assert DeliveryOf(e) in store'.deliveries;
    forall d | d in store'.deliveries ensures d in store.deliveries || d == DeliveryOf(e) {}
    assert forall d :: d in store.deliveries ==> d in store'.deliveries;
  }

  /** One call: the store keeps its shape, and changes only the calling handler's workspace and id. */
  lemma {:induction false} AdvanceKeeps(store: Store, h: Handler, events: set<Event>)
    requires LedgerHolds(store, events) && RowsHold(store, events) && h.event in events && Knows(store, h)
    ensures var (store', h') := Advance(store, h);
            && LedgerHolds(store', events) && RowsHold(store', events)
            && h'.event == h.event && Knows(store', h')
            && (forall w :: w != h.event.workspaceId ==> RowOf(store', w) == RowOf(store, w))
            && (forall id :: Delivered(store', id) <==>
                 Delivered(store, id) || (id == h.event.id && h'.stage.Finished? && IdFits(id)))
            && (h.stage.Finished? ==> h' == h && store' == store)
  {
    var e := h.event;
    match h.stage {
      case Ordered(current) =>
        if IsStale(e, current) {
          RecordKeeps(store, e, StaleOrOutOfOrder, events);
        } else {
          forall d | d in store.deliveries && d.workspaceId == e.workspaceId ensures d.seqNo <= e.seqNo {
            assert d.seqNo <= store.rows[d.workspaceId].seqNo;
          }
        }
      case Applied => RecordKeeps(store, e, Processed, events);
      case _ =>
    }
  }

  /** A call of one handler disturbs no other. */
  lemma {:induction false} OthersStillKnow(
      store: Store, store': Store, h: Handler, h': Handler, other: Handler, events: set<Event>)
    requires Distinct(events) && h.event in events && other.event in events
    requires forall w :: w != h.event.workspaceId ==> RowOf(store', w) == RowOf(store, w)
    requires forall id :: Delivered(store', id) <==>
      Delivered(store, id) || (id == h.event.id && h'.stage.Finished? && IdFits(id))
    requires !other.stage.Finished? ==> other.event.workspaceId != h.event.workspaceId
    requires Knows(store, other)
    ensures Knows(store', other)
  {}

  lemma {:induction false} CallKeeps(s: System, n: nat, events: set<Event>)
    requires Distinct(events) && Inv(s, events) && n in s.handlers && !s.handlers[n].stage.Finished?
    ensures Inv(Step(s, Call(n)), events)
  {
    var h, s' := s.handlers[n], Step(s, Call(n));
    AdvanceKeeps(s.store, h, events);
    var (store', h') := Advance(s.store, h);
    assert Busy(s, n, h.event.workspaceId);
    forall m | m in s'.handlers ensures s'.handlers[m].event in events && Knows(store', s'.handlers[m]) {
      if m != n {
        var other := s.handlers[m];
        assert !other.stage.Finished? ==> Busy(s, m, other.event.workspaceId);
        OthersStillKnow(s.store, store', h, h', other, events);
      }
    }
    forall m, w | Busy(s', m, w) ensures Busy(s, m, w) {}
  }

  lemma {:induction false} StartKeeps(s: System, n: nat, e: Event, events: set<Event>)
    requires Inv(s, events) && e in events && n !in s.handlers && forall m :: !Busy(s, m, e.workspaceId)
    ensures Inv(Step(s, Start(n, e)), events)
  {
    var s' := Step(s, Start(n, e));
    assert forall m, w :: Busy(s', m, w) <==> Busy(s, m, w) || (m == n && w == e.workspaceId);
  }

  lemma {:induction false} RemoveKeeps(s: System, n: nat, events: set<Event>)
    requires Inv(s, events)
    ensures Inv(Step(s, Remove(n)), events)
  {
    var s' := Step(s, Remove(n));
    assert forall m, w :: Busy(s', m, w) ==> Busy(s, m, w);
  }

  lemma {:induction false} StepKeeps(s: System, a: Action, events: set<Event>)
    requires Distinct(events) && Inv(s, events) && Serial(s, events, [a])
    ensures Inv(Step(s, a), events)
  {
    match a {
      case Start(n, e) => StartKeeps(s, n, e, events);
      case Remove(n) => RemoveKeeps(s, n, events);
      case Call(n) =>
        if n in s.handlers {
          if s.handlers[n].stage.Finished? {
            assert Step(s, a).handlers == s.handlers;
          } else {
            CallKeeps(s, n, events);
          }
        }
    }
  }

  lemma {:induction false} RunKeeps(s: System, actions: seq<Action>, events: set<Event>)
    requires Distinct(events) && Inv(s, events) && Serial(s, events, actions)
    ensures Inv(Run(s, actions), events)
    decreases |actions|
  {
    if actions != [] {
      StepKeeps(s, actions[0], events);
      RunKeeps(Step(s, actions[0]), actions[1..], events);
    }
  }

  // ---- Convergence ----

  /** e has the highest sequence number of its workspace. */
  ghost predicate IsNewest(e: Event, events: set<Event>) {
    e in events && forall f :: f in events && f.workspaceId == e.workspaceId ==> f.seqNo <= e.seqNo
  }

  /** Each workspace is where its newest event puts it, and the ledger lists each event once. */
  ghost predicate Converged(store: Store, events: set<Event>) {
    && (forall w :: w in store.rows <==> exists e :: e in events && e.workspaceId == w)
    && (forall e :: IsNewest(e, events) ==> RowOf(store, e.workspaceId) == Some(ProvisioningRow(e.status, e.seqNo)))
    && (forall e :: e in events ==> multiset(store.deliveries)[DeliveryOf(e)] == 1)
    && |store.deliveries| == |events|
  }

  lemma {:induction false} LedgerCount(deliveries: seq<Delivery>, events: set<Event>)
    requires forall i, j :: 0 <= i < j < |deliveries| ==> deliveries[i].deliveryId != deliveries[j].deliveryId
    requires forall d :: d in deliveries ==> exists e :: e in events && d == DeliveryOf(e)
    requires forall e, f :: e in events && f in events && e.id == f.id ==> e == f
    requires forall e :: e in events ==> DeliveryOf(e) in deliveries
    ensures |deliveries| == |events| && forall e :: e in events ==> multiset(deliveries)[DeliveryOf(e)] == 1
    decreases |deliveries|
  {
    if deliveries == [] {
      assert forall e :: e in events ==> DeliveryOf(e) in deliveries;
      assert events == {};
    } else {
      var init, last := deliveries[..|deliveries| - 1], deliveries[|deliveries| - 1];
      assert deliveries == init + [last];
      assert last in deliveries;
      var e :| e in events && last == DeliveryOf(e);
      var others := events - {e};
      forall d | d in init ensures exists f :: f in others && d == DeliveryOf(f) {
        assert d in deliveries;
        var f :| f in events && d == DeliveryOf(f);
        assert f.id != e.id;
      }
      forall f | f in others ensures DeliveryOf(f) in init {
        assert DeliveryOf(f) in deliveries && DeliveryOf(f) != last;
      }
      LedgerCount(init, others);
      assert last !in init;
      assert multiset(deliveries) == multiset(init) + multiset{last};
    }
  }

  /** A recorded event's delivery is its own, and its workspace's row is at least as new. */
  lemma {:induction false} DeliveredEvent(store: Store, events: set<Event>, e: Event)
    requires Distinct(events) && LedgerHolds(store, events) && RowsHold(store, events)
    requires e in events && Delivered(store, e.id)
    ensures DeliveryOf(e) in store.deliveries && e.workspaceId in store.rows
            && e.seqNo <= store.rows[e.workspaceId].seqNo
  {
    var d :| d in store.deliveries && d.deliveryId == e.id;
    var f :| f in events && d == DeliveryOf(f);
  }

  lemma {:induction false} NewestRow(store: Store, events: set<Event>, e: Event)
    requires Distinct(events) && LedgerHolds(store, events) && RowsHold(store, events)
    requires IsNewest(e, events) && Delivered(store, e.id)
    ensures RowOf(store, e.workspaceId) == Some(ProvisioningRow(e.status, e.seqNo))
  {
    DeliveredEvent(store, events, e);
    var f :| f in events && f.workspaceId == e.workspaceId
      && store.rows[e.workspaceId] == ProvisioningRow(f.status, f.seqNo);
  }

  lemma {:induction false} AllDeliveredConverges(store: Store, events: set<Event>)
    requires Distinct(events) && LedgerHolds(store, events) && RowsHold(store, events)
    requires forall e :: e in events ==> Delivered(store, e.id)
    ensures Converged(store, events)
  {
    forall e | e in events ensures DeliveryOf(e) in store.deliveries && e.workspaceId in store.rows {
      DeliveredEvent(store, events, e);
    }
    forall e | IsNewest(e, events) ensures RowOf(store, e.workspaceId) == Some(ProvisioningRow(e.status, e.seqNo)) {
      NewestRow(store, events, e);
    }
    LedgerCount(store.deliveries, events);
  }

  /**
   * A handler that finished has its event in the ledger exactly when the id fits there, and is refused otherwise; no
   * insert ever violated the unique constraint.
   */
  lemma {:induction false} FinishedMeansDelivered(events: set<Event>, actions: seq<Action>, n: nat)
    requires Distinct(events) && Serial(INITIAL, events, actions)
    requires var s := Run(INITIAL, actions); n in s.handlers && s.handlers[n].stage.Finished?
    ensures var s := Run(INITIAL, actions);
            var id, outcome := s.handlers[n].event.id, s.handlers[n].stage.outcome;
            && (Delivered(s.store, id) <==> IdFits(id))
            && (outcome.LedgerRefused? <==> !IdFits(id))
            && !outcome.LedgerConflict?
  {
    RunKeeps(INITIAL, actions, events);
  }

  /** Nothing leaves the ledger. */
  lemma {:induction false} LedgerGrows(s: System, actions: seq<Action>, id: string)
    requires Delivered(s.store, id)
    ensures Delivered(Run(s, actions).store, id)
    decreases |actions|
  {
    if actions != [] {
      var next := Step(s, actions[0]);
      assert s.store.deliveries <= next.store.deliveries;
      assert forall d :: d in s.store.deliveries ==> d in next.store.deliveries;
      LedgerGrows(next, actions[1..], id);
    }
  }

  lemma {:induction false} RunInTwo(s: System, events: set<Event>, a: seq<Action>, b: seq<Action>)
    ensures Run(s, a + b) == Run(Run(s, a), b)
    ensures Serial(s, events, a + b) ==> Serial(s, events, a) && Serial(Run(s, a), events, b)
    decreases |a|
  {
    if a == [] {
      assert a + b == b;
    } else {
      assert (a + b)[1..] == a[1..] + b;
      RunInTwo(Step(s, a[0]), events, a[1..], b);
    }
  }

  /** After the first k actions some handler of e has ended by itself. */
  ghost predicate FinishedBy(actions: seq<Action>, k: nat, e: Event)
    requires k <= |actions|
  {
    var s := Run(INITIAL, actions[..k]);
    exists n :: n in s.handlers && s.handlers[n].event == e && s.handlers[n].stage.Finished?
  }

  /** Some handler of e ended by itself at some time, whatever became of the others. */
  ghost predicate EverFinished(actions: seq<Action>, e: Event) {
    exists k: nat :: k <= |actions| && FinishedBy(actions, k, e)
  }

  lemma {:induction false} EverFinishedMeansDelivered(events: set<Event>, actions: seq<Action>, e: Event)
    requires Distinct(events) && Serial(INITIAL, events, actions) && EverFinished(actions, e) && IdFits(e.id)
    ensures Delivered(Run(INITIAL, actions).store, e.id)
  {
    var k: nat :| k <= |actions| && FinishedBy(actions, k, e);
    var s := Run(INITIAL, actions[..k]);
    var n :| n in s.handlers && s.handlers[n].event == e && s.handlers[n].stage.Finished?;
    assert actions == actions[..k] + actions[k..];
    RunInTwo(INITIAL, events, actions[..k], actions[k..]);
    FinishedMeansDelivered(events, actions[..k], n);
    LedgerGrows(s, actions[k..], e.id);
  }

  /** What an action adds to the ledger is the event of a handler that finishes with it. */
  lemma {:induction false} NewlyDelivered(s: System, a: Action, id: string)
    requires !Delivered(s.store, id) && Delivered(Step(s, a).store, id)
    ensures a.Call? && a.handler in Step(s, a).handlers
    ensures var h := Step(s, a).handlers[a.handler]; h.event.id == id && h.stage.Finished?
  {
    assert a.Call? && a.handler in s.handlers;
  }

  lemma {:induction false} DeliveredMeansEverFinished(events: set<Event>, actions: seq<Action>, k: nat, e: Event)
    requires Distinct(events) && Serial(INITIAL, events, actions) && k <= |actions|
    requires e in events && Delivered(Run(INITIAL, actions[..k]).store, e.id)
    ensures EverFinished(actions, e)
  {
    if k > 0 {
      var before, a := Run(INITIAL, actions[..k - 1]), actions[k - 1];
      assert actions[..k] == actions[..k - 1] + [a];
      assert actions == actions[..k] + actions[k..];
      RunInTwo(INITIAL, events, actions[..k], actions[k..]);
      RunInTwo(INITIAL, events, actions[..k - 1], [a]);
      assert Run(before, [a]) == Step(before, a);
      if Delivered(before.store, e.id) {
        DeliveredMeansEverFinished(events, actions, k - 1, e);
      } else {
        NewlyDelivered(before, a, e.id);
        RunKeeps(INITIAL, actions[..k], events);
        var s := Run(INITIAL, actions[..k]);
        assert s.handlers[a.handler].event == e;
        assert FinishedBy(actions, k, e);
      }
    }
  }

  /**
   * However the events are ordered, repeated, interleaved across workspaces or interrupted: each workspace is where its
   * highest sequence number puts it, and the ledger lists each event once, exactly when every id fits the ledger and
   * some handler of each event has finished.
   */
  lemma {:induction false} WebhookConverges(events: set<Event>, actions: seq<Action>)
    requires Distinct(events) && Serial(INITIAL, events, actions)
    ensures Converged(Run(INITIAL, actions).store, events) <==>
            forall e :: e in events ==> IdFits(e.id) && EverFinished(actions, e)
  {
    if forall e :: e in events ==> IdFits(e.id) && EverFinished(actions, e) {
      FinishedConverges(events, actions);
    }
    if Converged(Run(INITIAL, actions).store, events) {
      ConvergedMeansFinished(events, actions);
    }
  }

  lemma {:induction false} FinishedConverges(events: set<Event>, actions: seq<Action>)
    requires Distinct(events) && Serial(INITIAL, events, actions)
    requires forall e :: e in events ==> IdFits(e.id) && EverFinished(actions, e)
    ensures Converged(Run(INITIAL, actions).store, events)
  {
    var store := Run(INITIAL, actions).store;
    forall e | e in events ensures Delivered(store, e.id) {
      EverFinishedMeansDelivered(events, actions, e);
    }
    RunKeeps(INITIAL, actions, events);
    AllDeliveredConverges(store, events);
  }

  lemma {:induction false} ConvergedIsDelivered(store: Store, events: set<Event>, e: Event)
    requires Converged(store, events) && e in events
    ensures Delivered(store, e.id)
  {
    assert DeliveryOf(e) in multiset(store.deliveries);
  }

  lemma {:induction false} ConvergedMeansFinished(events: set<Event>, actions: seq<Action>)
    requires Distinct(events) && Serial(INITIAL, events, actions)
    requires Converged(Run(INITIAL, actions).store, events)
    ensures forall e :: e in events ==> IdFits(e.id) && EverFinished(actions, e)
  {
    var store := Run(INITIAL, actions).store;
    assert actions[..|actions|] == actions;
    RunKeeps(INITIAL, actions, events);
    forall e | e in events ensures IdFits(e.id) && EverFinished(actions, e) {
      ConvergedIsDelivered(store, events, e);
      DeliveredMeansEverFinished(events, actions, |actions|, e);
    }
  }

  // ---- The same over payloads ----

  /** A payload that every query takes. */
  predicate Deliverable(p: Payload) {
    && IsValid(p) && !HasNul(p.id) && IdFits(p.id) && UuidOf(p.workspaceId).Some?
    && p.seqNo.value.Floor as real == p.seqNo.value
  }

  /** Distinct ids, and distinct numbers within a workspace, however its uuid is spelled. */
  ghost predicate DistinctPayloads(payloads: set<Payload>) {
    && (forall p, q :: p in payloads && q in payloads && p.id == q.id ==> p == q)
    && (forall p, q :: p in payloads && q in payloads && SameWorkspace(p, q) && p.seqNo == q.seqNo ==> p == q)
  }

  predicate SameWorkspace(p: Payload, q: Payload) {
    UuidOf(p.workspaceId) == UuidOf(q.workspaceId)
  }

  /** The event that a payload is handled as. */
  ghost predicate IsEventOf(e: Event, p: Payload) {
    Deliverable(p) && e == EventOf(p)
  }

  ghost predicate EventsOf(events: set<Event>, payloads: set<Payload>) {
    && (forall e :: e in events ==> exists p :: p in payloads && IsEventOf(e, p))
    && (forall p :: p in payloads ==> Deliverable(p) && EventOf(p) in events)
  }

  /** p has the highest number of its workspace. */
  ghost predicate IsHighest(p: Payload, payloads: set<Payload>) {
    forall q :: q in payloads && SameWorkspace(p, q) ==> q.seqNo.GetOr(0.0) <= p.seqNo.GetOr(0.0)
  }

  lemma {:induction false} DistinctPayloadsMakeDistinctEvents(payloads: set<Payload>, events: set<Event>)
    requires DistinctPayloads(payloads) && EventsOf(events, payloads)
    ensures Distinct(events)
  {
    forall e, f | e in events && f in events
      ensures e.id == f.id ==> e == f
      ensures e.workspaceId == f.workspaceId && e.seqNo == f.seqNo ==> e == f
    {
      var p :| p in payloads && IsEventOf(e, p);
      var q :| q in payloads && IsEventOf(f, q);
      assert e.workspaceId == f.workspaceId ==> SameWorkspace(p, q);
    }
  }

  /** The row of a workspace and the ledger say what p says. */
  ghost predicate EndsAt(store: Store, p: Payload) {
    && UuidOf(p.workspaceId).Some?
    && var w := UuidOf(p.workspaceId).value;
    w in store.rows && Says(store.rows[w].status, store.rows[w].seqNo, p)
  }

  /**
   * Whatever happens on the way, once some handler of each payload has finished, the row of every workspace has the
   * kind and the number of its highest-numbered payload, and the ledger lists the id of each payload, once.
   */
  lemma {:induction false} PayloadsConverge(
      payloads: set<Payload>, events: set<Event>, actions: seq<Action>, p: Payload)
    requires DistinctPayloads(payloads) && EventsOf(events, payloads) && p in payloads
    requires Serial(INITIAL, events, actions) && forall e :: e in events ==> EverFinished(actions, e)
    ensures var store := Run(INITIAL, actions).store;
            && (IsHighest(p, payloads) ==> EndsAt(store, p))
            && (exists d :: d in store.deliveries && d.deliveryId == p.id)
            && |store.deliveries| == |events|
  {
    var store, e := Run(INITIAL, actions).store, EventOf(p);
    DistinctPayloadsMakeDistinctEvents(payloads, events);
    forall f | f in events ensures IdFits(f.id) {
      var q :| q in payloads && IsEventOf(f, q);
    }
    WebhookConverges(events, actions);
    ConvergedIsDelivered(store, events, e);
    if IsHighest(p, payloads) {
      forall f | f in events && f.workspaceId == e.workspaceId ensures f.seqNo <= e.seqNo {
        var q :| q in payloads && IsEventOf(f, q);
        assert SameWorkspace(p, q);
      }
      assert IsNewest(e, events);
    }
  }

  /** Each applied event strictly raises its workspace's sequence number; nothing else touches a row. */
  lemma {:induction false} SequenceOnlyRises(s: System, a: Action, events: set<Event>, w: string)
    requires Inv(s, events) && RowOf(Step(s, a).store, w) != RowOf(s.store, w)
    ensures RowOf(Step(s, a).store, w).Some?
    ensures RowOf(s.store, w).Some? ==> RowOf(s.store, w).value.seqNo < RowOf(Step(s, a).store, w).value.seqNo
  {
    assert a.Call? && a.handler in s.handlers;
    assert Knows(s.store, s.handlers[a.handler]);
  }

  lemma {:induction false} ConvergedAlike(a: Store, b: Store, events: set<Event>)
    requires Converged(a, events) && Converged(b, events)
    ensures a.rows == b.rows
  {
    forall w | w in a.rows ensures w in b.rows && a.rows[w] == b.rows[w] {
      var e := NewestOf(events, w);
      assert RowOf(a, w) == RowOf(b, w);
    }
    assert forall w :: w in a.rows <==> w in b.rows;
  }

  lemma {:induction false} LedgersAlike(a: seq<Delivery>, b: seq<Delivery>, events: set<Event>)
    requires forall d :: d in a || d in b ==> exists e :: e in events && d == DeliveryOf(e)
    requires forall e :: e in events ==> multiset(a)[DeliveryOf(e)] == multiset(b)[DeliveryOf(e)] == 1
    ensures multiset(a) == multiset(b)
  {
    forall d ensures multiset(a)[d] == multiset(b)[d] {
      if d in a || d in b {
        var e :| e in events && d == DeliveryOf(e);
        assert multiset(a)[DeliveryOf(e)] == multiset(b)[DeliveryOf(e)];
      } else {
        assert d !in multiset(a) && d !in multiset(b);
      }
    }
  }

  /** Two complete histories of the same events end alike: the same rows, and the same ledger but for its order. */
  lemma {:induction false} HistoriesAgree(events: set<Event>, actions: seq<Action>, actions': seq<Action>)
    requires Distinct(events) && Serial(INITIAL, events, actions) && Serial(INITIAL, events, actions')
    requires forall e :: e in events ==> IdFits(e.id) && EverFinished(actions, e) && EverFinished(actions', e)
    ensures var a, b := Run(INITIAL, actions).store, Run(INITIAL, actions').store;
            a.rows == b.rows && multiset(a.deliveries) == multiset(b.deliveries)
  {
    var a, b := Run(INITIAL, actions).store, Run(INITIAL, actions').store;
    WebhookConverges(events, actions);
    WebhookConverges(events, actions');
    ConvergedAlike(a, b, events);
    RunKeeps(INITIAL, actions, events);
    RunKeeps(INITIAL, actions', events);
    LedgersAlike(a.deliveries, b.deliveries, events);
  }

  lemma {:induction false} NewestOf(events: set<Event>, w: string) returns (newest: Event)
    requires exists e :: e in events && e.workspaceId == w
    ensures IsNewest(newest, events) && newest.workspaceId == w
    decreases events
  {
    var e :| e in events && e.workspaceId == w;
    var rest := events - {e};
    if f :| f in rest && f.workspaceId == w {
      newest := NewestOf(rest, w);
      if newest.seqNo < e.seqNo {
        newest := e;
      }
    } else {
      newest := e;
    }
  }

  /** Both handlers make their next call, in turn. */
  function BothCall(s: System): System {
    Step(Step(s, Call(0)), Call(1))
  }

  /** Two deliveries handled in lockstep. */
  const LOCKSTEP := [Call(0), Call(1), Call(0), Call(1), Call(0), Call(1), Call(0), Call(1)]

  lemma {:induction false} RunLockstep(s: System)
    ensures Run(s, LOCKSTEP) == BothCall(BothCall(BothCall(BothCall(s))))
  {
    var s1, s2, s3 := BothCall(s), BothCall(BothCall(s)), BothCall(BothCall(BothCall(s)));
    var two := [Call(0), Call(1)];
    RunTwo(s3, Call(0), Call(1), []);
    RunTwo(s2, Call(0), Call(1), two);
    RunTwo(s1, Call(0), Call(1), two + two);
    RunTwo(s, Call(0), Call(1), two + (two + two));
    assert two + [] == two && LOCKSTEP == two + (two + (two + two));
  }

  /** The store and the handlers after both have made their calls together, twice and then twice more. */
  lemma {:induction false} LockstepStates(older: Event, newer: Event, s0: System)
    requires older.id != newer.id && older.workspaceId == newer.workspaceId
    requires s0 == System(Store(map[], []), map[0 := Handler(newer, Received), 1 := Handler(older, Received)])
    ensures BothCall(BothCall(s0)) ==
            System(s0.store, map[0 := Handler(newer, Ordered(None)), 1 := Handler(older, Ordered(None))])
  {
    var s1 := System(s0.store, map[0 := Handler(newer, NotSeen), 1 := Handler(older, NotSeen)]);
    assert BothCall(s0) == s1;
    assert BothCall(s1).handlers == map[0 := Handler(newer, Ordered(None)), 1 := Handler(older, Ordered(None))];
  }

  lemma {:induction false} LockstepWrites(older: Event, newer: Event, s2: System)
    requires older.id != newer.id && older.workspaceId == newer.workspaceId
    requires s2 == System(Store(map[], []), map[0 := Handler(newer, Ordered(None)), 1 := Handler(older, Ordered(None))])
    ensures var store := BothCall(BothCall(s2)).store;
            && store.rows == map[older.workspaceId := ProvisioningRow(older.status, older.seqNo)]
            && store.deliveries == InLedger(newer) + InLedger(older)
  {
    var row := map[older.workspaceId := ProvisioningRow(older.status, older.seqNo)];
    var s3 := System(Store(row, []), map[0 := Handler(newer, Applied), 1 := Handler(older, Applied)]);
    assert BothCall(s2) == s3;
  }

  /** What an event leaves in the ledger. */
  function InLedger(e: Event): seq<Delivery> {
    if IdFits(e.id) then [DeliveryOf(e)] else []
  }

  /**
   * Two handlers at once on one workspace: both read before either writes, and the older event overwrites the
   * newer one for good.
   */
  lemma {:induction false} InterleavingMovesBackwards(older: Event, newer: Event)
    requires older.id != newer.id && older.workspaceId == newer.workspaceId && older.seqNo < newer.seqNo
    ensures var s := Run(INITIAL, [Start(0, newer), Start(1, older)] + LOCKSTEP);
            && s.store.deliveries == InLedger(newer) + InLedger(older)
            && RowOf(s.store, newer.workspaceId) == Some(ProvisioningRow(older.status, older.seqNo))
            && !Converged(s.store, {older, newer})
  {
    var s0 := Step(Step(INITIAL, Start(0, newer)), Start(1, older));
    RunTwo(INITIAL, Start(0, newer), Start(1, older), LOCKSTEP);
    RunLockstep(s0);
    LockstepStates(older, newer, s0);
    LockstepWrites(older, newer, BothCall(BothCall(s0)));
    assert IsNewest(newer, {older, newer});
  }

  lemma {:induction false} RunTwo(s: System, a: Action, b: Action, rest: seq<Action>)
    ensures Run(s, [a, b] + rest) == Run(Step(Step(s, a), b), rest)
  {
    assert ([a, b] + rest)[1..] == [b] + rest && ([b] + rest)[1..] == rest;
    assert Run(Step(s, a), [b] + rest) == Run(Step(Step(s, a), b), rest);
  }
}
