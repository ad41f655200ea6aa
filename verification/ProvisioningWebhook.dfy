/**
 * The provisioning webhook receiver (service/src/provisioning/provisioning-webhook.service.ts and its
 * repository): an idempotency ledger and one row per workspace with a monotone sequence number.
 */
module ProvisioningWebhook {
  import opened Columns
  import opened Wrappers
  import Trimming = Text

  datatype Status = Provisioned | Deprovisioned

  /**
   * A payload that passed validation and its first two queries: a whole number, and the workspace's uuid as stored.
   */
  datatype Event = Event(id: string, status: Status, workspaceId: string, seqNo: int)

  datatype ProvisioningRow = ProvisioningRow(status: Status, seqNo: int)

  datatype Delivery = Delivery(deliveryId: string, workspaceId: string, status: Status, seqNo: int)

  /** The two tables. Tenant id and the timestamp columns are not modelled. */
  datatype Store = Store(rows: map<string, ProvisioningRow>, deliveries: seq<Delivery>)

  datatype Outcome = Processed | DuplicateDelivery | StaleOrOutOfOrder | LedgerConflict | LedgerRefused

  const DELIVERY_ID_LENGTH := 128

  /** The ledger's column takes the id. */
  predicate IdFits(id: string) {
    |id| <= DELIVERY_ID_LENGTH
  }

  function DeliveryOf(e: Event): Delivery {
    Delivery(e.id, e.workspaceId, e.status, e.seqNo)
  }

  predicate Delivered(s: Store, id: string) {
    exists d :: d in s.deliveries && d.deliveryId == id
  }

  function RowOf(s: Store, workspaceId: string): Option<ProvisioningRow> {
    if workspaceId in s.rows then Some(s.rows[workspaceId]) else None
  }

  predicate IsStale(e: Event, current: Option<ProvisioningRow>) {
    current.Some? && e.seqNo <= current.value.seqNo
  }

  function Upserted(s: Store, e: Event): Store {
    s.(rows := s.rows[e.workspaceId := ProvisioningRow(e.status, e.seqNo)])
  }

  // ---- One handler, database call by database call ----

  datatype Stage =
    | Received
    | NotSeen
    | Ordered(current: Option<ProvisioningRow>)
    | Applied
    | Finished(outcome: Outcome)

  datatype Handler = Handler(event: Event, stage: Stage)

  /** An insert throws for an id that is too long, and for one that is there already. */
  function Recorded(s: Store, e: Event, outcome: Outcome): (Store, Handler) {
    if !IdFits(e.id) then (s, Handler(e, Finished(LedgerRefused)))
    else if Delivered(s, e.id) then (s, Handler(e, Finished(LedgerConflict)))
    else (s.(deliveries := s.deliveries + [DeliveryOf(e)]), Handler(e, Finished(outcome)))
  }

  function Advance(s: Store, h: Handler): (Store, Handler) {
    var e := h.event;
    match h.stage
    case Received => (s, Handler(e, if Delivered(s, e.id) then Finished(DuplicateDelivery) else NotSeen))
    case NotSeen => (s, Handler(e, Ordered(RowOf(s, e.workspaceId))))
    case Ordered(current) => if IsStale(e, current) then
      Recorded(s, e, StaleOrOutOfOrder) else (Upserted(s, e), Handler(e, Applied))
    case Applied => Recorded(s, e, Processed)
    case Finished(_) => (s, h)
  }

  function AdvanceBy(s: Store, h: Handler, n: nat): (Store, Handler)
    decreases n
  {
    if n == 0 then (s, h) else var (s', h') := Advance(s, h); AdvanceBy(s', h', n - 1)
  }

  /** A handler that nothing interrupts. */
  function Handled(s: Store, e: Event): (Store, Outcome) {
    if Delivered(s, e.id) then (s, DuplicateDelivery)
    else
      var stale := IsStale(e, RowOf(s, e.workspaceId));
      var applied := if stale then s else Upserted(s, e);
      if !IdFits(e.id) then (applied, LedgerRefused)
      else
        (applied.(deliveries := s.deliveries + [DeliveryOf(e)]), if stale then StaleOrOutOfOrder else Processed)
  }

  /** Four database calls are always enough, and uninterrupted they are the handler. */
  lemma {:induction false} FourCallsHandle(s: Store, e: Event)
    ensures var (s', h) := AdvanceBy(s, Handler(e, Received), 4);
            h.stage.Finished? && (s', h.stage.outcome) == Handled(s, e)
  {
    var a := Advance(s, Handler(e, Received));
    var b := Advance(a.0, a.1);
    var c := Advance(b.0, b.1);
    var d := Advance(c.0, c.1);
    assert AdvanceBy(c.0, c.1, 1) == d;
    assert AdvanceBy(b.0, b.1, 2) == d;
    assert AdvanceBy(a.0, a.1, 3) == d;
  }

  // ---- The receiver ----

  /** The body as received: a missing or non-numeric number is None. */
  datatype Payload = Payload(id: string, kind: string, workspaceId: string, seqNo: Option<real>,
      occurredAt: Option<real>)

  datatype Rejection = Unauthorized | BadRequest | NotAnInteger | DatabaseError

  predicate IsValid(p: Payload) {
    && !Trimming.IsBlank(p.id) && p.kind in {"tenant.provisioned", "tenant.deprovisioned"}
    && !Trimming.IsBlank(p.workspaceId) && p.seqNo.Some? && p.occurredAt.Some?
  }

  /** Every spelling of a uuid names the same workspace. */
  function EventOf(p: Payload): Event
    requires p.seqNo.Some? && UuidOf(p.workspaceId).Some?
  {
    Event(p.id, if p.kind == "tenant.provisioned" then Provisioned else Deprovisioned,
          UuidOf(p.workspaceId).value, p.seqNo.value.Floor)
  }

  /**
   * Verify, then idempotency, then ordering. No query takes a NUL, the workspace column takes only a uuid, a fractional
   * seq throws when it is first converted, and the ledger refuses an id that is too long, after the row is written.
   */
  function Answered(s: Store, signatureOk: bool, p: Payload): (Store, Result<Outcome, Rejection>) {
    if !signatureOk then (s, Failure(Unauthorized))
    else if !IsValid(p) then (s, Failure(BadRequest))
    else if HasNul(p.id) then (s, Failure(DatabaseError))
    else if Delivered(s, p.id) then (s, Success(DuplicateDelivery))
    else if UuidOf(p.workspaceId).None? then (s, Failure(DatabaseError))
    else if p.seqNo.value.Floor as real != p.seqNo.value then (s, Failure(NotAnInteger))
    else
      var (s', outcome) := Handled(s, EventOf(p));
      (s', if outcome.LedgerRefused? then Failure(DatabaseError) else Success(outcome))
  }

  class ProvisioningWebhookService {
    var rows: map<string, ProvisioningRow>
    var deliveries: seq<Delivery>

    function State(): Store
      reads this
    {
      Store(rows, deliveries)
    }

    constructor ()
      ensures State() == Store(map[], [])
    {
      rows, deliveries := map[], [];
    }

    method FindDelivery(id: string) returns (found: bool)
      ensures found == Delivered(State(), id)
    {
      for n := 0 to |deliveries|
        invariant forall d :: d in deliveries[..n] ==> d.deliveryId != id
      {
        if deliveries[n].deliveryId == id {
          return true;
        }
      }
      found := false;
    }

    method RecordDelivery(e: Event) returns (taken: bool)
      requires !Delivered(State(), e.id)
      modifies this`deliveries
      ensures taken <==> IdFits(e.id)
      ensures deliveries == if taken then old(deliveries) + [DeliveryOf(e)] else old(deliveries)
    {
      if |e.id| > DELIVERY_ID_LENGTH {
        return false;
      }
      deliveries := deliveries + [DeliveryOf(e)];
      taken := true;
    }

    method UpsertProvisioning(e: Event)
      modifies this`rows
      ensures State() == Upserted(old(State()), e)
      ensures RowOf(State(), e.workspaceId) == Some(ProvisioningRow(e.status, e.seqNo))
      ensures forall w :: w != e.workspaceId ==> RowOf(State(), w) == old(RowOf(State(), w))
    {
      rows := rows[e.workspaceId := ProvisioningRow(e.status, e.seqNo)];
    }

    method Handle(signatureOk: bool, p: Payload) returns (r: Result<Outcome, Rejection>)
      modifies this
      ensures (State(), r) == Answered(old(State()), signatureOk, p)
    {
      if !signatureOk {
        return Failure(Unauthorized);
      }
      if !IsValid(p) {
        return Failure(BadRequest);
      }
      if HasNul(p.id) {
        return Failure(DatabaseError);
      }
      var existing := FindDelivery(p.id);
      if existing {
        return Success(DuplicateDelivery);
      }
      if UuidOf(p.workspaceId).None? {
        return Failure(DatabaseError);
      }
      if p.seqNo.value.Floor as real != p.seqNo.value {
        return Failure(NotAnInteger);
      }
      var e := EventOf(p);
      var stale := e.workspaceId in rows && e.seqNo <= rows[e.workspaceId].seqNo;
      if !stale {
        UpsertProvisioning(e);
      }
      var taken := RecordDelivery(e);
      if !taken {
        return Failure(DatabaseError);
      }
      return Success(if stale then StaleOrOutOfOrder else Processed);
    }
  }

  // ---- Crashes ----

  /**
   * A crash between any two calls, then a redelivery: the store ends as an uninterrupted handler leaves it.
   * After the upsert the redelivery is told it is stale, and records the delivery.
   */
  lemma {:induction false} CrashThenRedeliver(s: Store, e: Event, n: nat)
    requires n <= 4
    ensures var (crashed, h) := AdvanceBy(s, Handler(e, Received), n);
            && Handled(crashed, e).0 == Handled(s, e).0
            && (h.stage.Applied? ==> Handled(crashed, e).1 == if IdFits(e.id) then StaleOrOutOfOrder else LedgerRefused)
  {
    var a := Advance(s, Handler(e, Received));
    var b := Advance(a.0, a.1);
    var c := Advance(b.0, b.1);
    assert AdvanceBy(s, Handler(e, Received), 1) == a;
    assert AdvanceBy(a.0, a.1, 1) == b && AdvanceBy(s, Handler(e, Received), 2) == b;
    assert AdvanceBy(b.0, b.1, 1) == c && AdvanceBy(a.0, a.1, 2) == c && AdvanceBy(s, Handler(e, Received), 3) == c;
    FourCallsHandle(s, e);
    if n == 4 && IdFits(e.id) {
      assert DeliveryOf(e) in Handled(s, e).0.deliveries || Delivered(s, e.id);
    }
  }

  // ---- What an answer means, in the payload's own fields ----

  /** Row and delivery say what the payload says. */
  predicate Says(status: Status, seqNo: int, p: Payload) {
    && (status == Provisioned <==> p.kind == "tenant.provisioned")
    && Some(seqNo as real) == p.seqNo
  }

  predicate HasDelivery(deliveries: seq<Delivery>, p: Payload) {
    && deliveries != []
    && var d := deliveries[|deliveries| - 1];
    d.deliveryId == p.id && Some(d.workspaceId) == UuidOf(p.workspaceId) && Says(d.status, d.seqNo, p)
  }

  predicate Lacks(p: Payload) {
    || Trimming.Trim(p.id) == "" || Trimming.Trim(p.workspaceId) == ""
    || (p.kind != "tenant.provisioned" && p.kind != "tenant.deprovisioned")
    || p.seqNo.None? || p.occurredAt.None?
  }

  /** Who is turned away: a bad signature first, then a payload without what it needs. */
  lemma {:induction false} RejectionsSay(s: Store, signatureOk: bool, p: Payload)
    ensures var (s', r) := Answered(s, signatureOk, p);
            && (r == Failure(Unauthorized) <==> !signatureOk)
            && (r == Failure(BadRequest) <==> signatureOk && Lacks(p))
            && (r.Failure? ==> s'.deliveries == s.deliveries && (IdFits(p.id) ==> s' == s))
  {
    assert IsValid(p) <==> !Lacks(p);
  }

  /** What the database and the conversion of the number turn away, of a payload that has what it needs. */
  lemma {:induction false} RefusalsSay(s: Store, p: Payload)
    requires !Lacks(p)
    ensures var r := Answered(s, true, p).1;
            var nul := exists i :: 0 <= i < |p.id| && p.id[i] == '\0';
            var known := exists d :: d in s.deliveries && d.deliveryId == p.id;
            var whole := p.seqNo.value.Floor as real == p.seqNo.value;
            && (r == Failure(DatabaseError) <==>
                  nul || (!known && (UuidOf(p.workspaceId).None? || (whole && |p.id| > 128))))
            && (r == Failure(NotAnInteger) <==> !nul && !known && UuidOf(p.workspaceId).Some? && !whole)
  {
    assert IsValid(p);
  }

  /** What an accepted payload does: nothing again, only the ledger when it is old, and else its row and the ledger. */
  lemma {:induction false} AcceptancesSay(s: Store, p: Payload)
    requires Answered(s, true, p).1.Success?
    ensures var (s', r) := Answered(s, true, p);
            match r.value
            case DuplicateDelivery => s' == s && exists d :: d in s.deliveries && d.deliveryId == p.id
            case StaleOrOutOfOrder =>
              && s'.rows == s.rows
              && HasDelivery(s'.deliveries, p) && s'.deliveries[..|s'.deliveries| - 1] == s.deliveries
              && UuidOf(p.workspaceId).value in s.rows
              && p.seqNo.value <= s.rows[UuidOf(p.workspaceId).value].seqNo as real
            case Processed =>
              && HasDelivery(s'.deliveries, p) && s'.deliveries[..|s'.deliveries| - 1] == s.deliveries
              && var w := UuidOf(p.workspaceId).value;
              && w in s'.rows && Says(s'.rows[w].status, s'.rows[w].seqNo, p)
              && (w in s.rows ==> s.rows[w].seqNo as real < p.seqNo.value)
              && (forall v :: v != w ==> RowOf(s', v) == RowOf(s, v))
            case _ => false
  {}

  // ---- Ids the ledger cannot hold ----

  /** A payload that nothing before the ledger refuses, and that is new to it. */
  predicate ReachesTheLedger(s: Store, p: Payload) {
    && IsValid(p) && !HasNul(p.id) && !Delivered(s, p.id)
    && UuidOf(p.workspaceId).Some? && p.seqNo.value.Floor as real == p.seqNo.value
  }

  /** Such a payload is recorded, and acknowledged, exactly when its id fits; it is applied either way. */
  lemma {:induction false} SettlesIffIdFits(s: Store, p: Payload)
    requires ReachesTheLedger(s, p)
    ensures var (s', r) := Answered(s, true, p);
            && (Delivered(s', p.id) <==> |p.id| <= 128)
            && (r.Success? <==> |p.id| <= 128)
            && RowOf(s', EventOf(p).workspaceId).Some?
            && RowOf(s', EventOf(p).workspaceId).value.seqNo >= EventOf(p).seqNo
  {
    var s' := Answered(s, true, p).0;
    if IdFits(p.id) {
      assert DeliveryOf(EventOf(p)) in s'.deliveries;
    }
  }

  /** An id that does not fit: every further delivery fails alike, and changes nothing. */
  lemma {:induction false} OverlongIdNeverSettles(s: Store, p: Payload)
    requires ReachesTheLedger(s, p) && !IdFits(p.id)
    ensures var (applied, first) := Answered(s, true, p);
            && ReachesTheLedger(applied, p)
            && first == Failure(DatabaseError) && Answered(applied, true, p) == (applied, first)
            && applied.deliveries == s.deliveries
  {
    SettlesIffIdFits(s, p);
  }
}
