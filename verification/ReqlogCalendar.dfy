/**
 * The request log as months and rows, without names: what maintenance, writes and a moving clock do to it
 * over whole histories. ReqlogRefinement ties it to the named partitions.
 */
module ReqlogCalendar {
  import opened ReqlogNames
  import opened ReqlogPartitions
  import opened Wrappers

  /** One month of one table. */
  datatype Slot = Slot(table: Table, month: int)

  datatype Calendar = Calendar(slots: map<Slot, seq<Row>>, requestDefault: seq<Row>, errorDefault: seq<Row>) {
    function Default(t: Table): seq<Row> {
      if t.RequestRecords? then requestDefault else errorDefault
    }

    predicate Has(t: Table, m: int) {
      Slot(t, m) in slots
    }
  }

  /** The months now to now + k of both tables. */
  function Wanted(now: int, k: nat): set<Slot> {
    (set m | now <= m <= now + k :: Slot(RequestRecords, m)) + (set m | now <= m <= now + k :: Slot(ErrorRecords, m))
  }

  /** A row of DEFAULT stands in the way of creating this slot. */
  predicate Blocked(c: Calendar, s: Slot) {
    s !in c.slots && HoldsMonth(c.Default(s.table), s.month)
  }

  /** The rule behind ensure_partitions: all missing months at once, or nothing. */
  function Extended(c: Calendar, now: int, monthsAhead: int): Option<Calendar> {
    if monthsAhead < 1 || (exists s :: s in Wanted(now, monthsAhead) && Blocked(c, s)) then None
    else Some(c.(slots := (map s | s in Wanted(now, monthsAhead) :: []) + c.slots))
  }

  /** The rule behind drop_expired_partitions. */
  function Trimmed(c: Calendar, now: int, retainMonths: int, dryRun: bool): Option<Calendar> {
    if retainMonths < 1 then None
    else if dryRun then Some(c)
    else Some(c.(slots := map s | s in c.slots && s.month >= now - retainMonths :: c.slots[s]))
  }

  function Filed(c: Calendar, t: Table, r: Row): Calendar {
    if c.Has(t, r.month) then c.(slots := c.slots[Slot(t, r.month) := c.slots[Slot(t, r.month)] + [r]])
    else if t.RequestRecords? then c.(requestDefault := c.requestDefault + [r])
    else c.(errorDefault := c.errorDefault + [r])
  }

  /** The months of the request table from now on: what monthsAhead counts. */
  function FutureMonths(c: Calendar, now: int): set<int> {
    set s | s in c.slots && s.table == RequestRecords && s.month >= now :: s.month
  }

  function CheckCalendar(c: Calendar, now: int): Verdict {
    if |c.requestDefault| > 0 then Fail else if |FutureMonths(c, now)| < 2 then Warn else Pass
  }

  // ---- Histories ----

  datatype Op =
    | Tick(months: nat)
    | Ensure(monthsAhead: int)
    | Prune(retainMonths: int, dryRun: bool)
    | Write(table: Table, id: nat)

  datatype System = System(calendar: Calendar, now: int)

  function Step(s: System, op: Op): System {
    match op
    case Tick(n) => s.(now := s.now + n)
    case Ensure(k) => s.(calendar := Extended(s.calendar, s.now, k).GetOr(s.calendar))
    case Prune(k, dryRun) => s.(calendar := Trimmed(s.calendar, s.now, k, dryRun).GetOr(s.calendar))
    case Write(t, id) => s.(calendar := Filed(s.calendar, t, Row(id, s.now)))
  }

  function Run(s: System, ops: seq<Op>): System
    decreases |ops|
  {
    if ops == [] then s else Run(Step(s, ops[0]), ops[1..])
  }

  function Bootstrap(now: int): System {
    System(Calendar(map s | s in Wanted(FIRST_MONTH, 6) :: [], [], []), now)
  }

  // ---- The runway is real ----

  /** From this month on, the months of the request table have no gap. */
  ghost predicate GapFree(c: Calendar, now: int) {
    forall a, b :: now <= a <= b && c.Has(RequestRecords, b) ==> c.Has(RequestRecords, a)
  }

  ghost predicate SameMonths(c: Calendar) {
    forall m :: c.Has(RequestRecords, m) <==> c.Has(ErrorRecords, m)
  }

  ghost predicate Maintained(s: System) {
    SameMonths(s.calendar) && GapFree(s.calendar, s.now)
  }

  lemma {:induction false} ExtendedMonths(c: Calendar, now: int, k: int)
    requires Extended(c, now, k).Some?
    ensures var r := Extended(c, now, k).value;
            && r.requestDefault == c.requestDefault && r.errorDefault == c.errorDefault
            && (forall s :: s in c.slots ==> s in r.slots && r.slots[s] == c.slots[s])
            && forall t, m :: r.Has(t, m) <==> c.Has(t, m) || now <= m <= now + k
  {
    forall t: Table, m | now <= m <= now + k ensures Slot(t, m) in Wanted(now, k) {
      assert t == RequestRecords || t == ErrorRecords;
    }
  }

  lemma {:induction false} OtherStepsKeepMonths(s: System, op: Op)
    requires op.Prune? || op.Write?
    ensures forall t, m :: Step(s, op).calendar.Has(t, m) <==>
                           s.calendar.Has(t, m) && (op.Prune? && op.retainMonths >= 1 && !op.dryRun ==>
                             m >= s.now - op.retainMonths)
  {}

  lemma {:induction false} StepMaintains(s: System, op: Op)
    requires Maintained(s)
    ensures Maintained(Step(s, op))
  {
    match op {
      case Ensure(k) =>
        if Extended(s.calendar, s.now, k).Some? {
          ExtendedMonths(s.calendar, s.now, k);
        }
      case Tick(_) =>
      case _ => OtherStepsKeepMonths(s, op);
    }
  }

  lemma {:induction false} RunMaintains(s: System, ops: seq<Op>)
    requires Maintained(s)
    ensures Maintained(Run(s, ops))
    decreases |ops|
  {
    if ops != [] {
      StepMaintains(s, ops[0]);
      RunMaintains(Step(s, ops[0]), ops[1..]);
    }
  }

  lemma {:induction false} BootstrapMonths(now: int)
    ensures forall t, m :: Bootstrap(now).calendar.Has(t, m) <==> FIRST_MONTH <= m <= FIRST_MONTH + 6
  {
    forall t: Table, m ensures Slot(t, m) in Wanted(FIRST_MONTH, 6) <==> FIRST_MONTH <= m <= FIRST_MONTH + 6 {
      assert t == RequestRecords || t == ErrorRecords;
    }
  }

  /** The bootstrap covers July 2026 to January 2027. */
  lemma {:induction false} BootstrapWindow(now: int)
    ensures forall t, m :: Bootstrap(now).calendar.Has(t, m) <==> 2026 * 12 + 6 <= m <= 2027 * 12
  {
    BootstrapMonths(now);
  }

  /** n months in a row are covered for a table, from m on, and the next one is not. */
  ghost predicate RunOf(c: Calendar, t: Table, m: int, n: nat) {
    (forall i :: m <= i < m + n ==> c.Has(t, i)) && !c.Has(t, m + n)
  }

  /** The n months from m on. */
  function Interval(m: int, n: nat): (r: set<int>)
    ensures |r| == n && forall i :: i in r <==> m <= i < m + n
  {
    if n == 0 then {} else Interval(m, n - 1) + {m + n - 1}
  }

  /** A finite set of months has a longest run. */
  lemma {:induction false} RunExists(c: Calendar, t: Table, m: int, left: set<Slot>) returns (n: nat)
    requires forall s :: s in left <==> s in c.slots && s.month >= m
    ensures RunOf(c, t, m, n)
    decreases left
  {
    if c.Has(t, m) {
      var rest := set s | s in left && s.month >= m + 1;
      assert Slot(t, m) in left && Slot(t, m) !in rest;
      var tail := RunExists(c, t, m + 1, rest);
      n := tail + 1;
      forall i | m <= i < m + n ensures c.Has(t, i) {
        assert i == m || m + 1 <= i < m + 1 + tail;
      }
    } else {
      n := 0;
    }
  }

  /** The count the readiness check reads is the length of the covered run exactly when there is no gap. */
  lemma {:induction false} RunwayCountsTheRun(c: Calendar, now: int, n: nat)
    requires RunOf(c, RequestRecords, now, n)
    ensures |FutureMonths(c, now)| == n <==> GapFree(c, now)
  {
    var run, future := Interval(now, n), FutureMonths(c, now);
    forall i ensures i in future <==> now <= i && c.Has(RequestRecords, i) {
      assert now <= i && c.Has(RequestRecords, i) ==> Slot(RequestRecords, i) in c.slots;
    }
    if GapFree(c, now) {
      assert forall i :: i in future && i >= now + n ==> c.Has(RequestRecords, now + n);
      assert run == future;
    } else {
      var a, b :| now <= a <= b && c.Has(RequestRecords, b) && !c.Has(RequestRecords, a);
      assert b in future && b !in run && run <= future;
      assert |future - run| == |future| - |run| && b in future - run;
    }
  }

  /**
   * After any history from the bootstrap window on, monthsAhead is the number of months in a row, this one
   * first, that both log tables have a partition for.
   */
  lemma {:induction false} RunwayIsReal(now: int, ops: seq<Op>)
    requires FIRST_MONTH <= now
    ensures var s := Run(Bootstrap(now), ops);
            && Maintained(s)
            && forall t :: RunOf(s.calendar, t, s.now, |FutureMonths(s.calendar, s.now)|)
  {
    BootstrapMonths(now);
    RunMaintains(Bootstrap(now), ops);
    var s := Run(Bootstrap(now), ops);
    var n := RunExists(s.calendar, RequestRecords, s.now, set x | x in s.calendar.slots && x.month >= s.now);
    RunwayCountsTheRun(s.calendar, s.now, n);
    forall t: Table ensures RunOf(s.calendar, t, s.now, n) {
      assert t == RequestRecords || t == ErrorRecords;
    }
  }

  /** Why the window matters: with the clock before it, seven months are reported and none is usable. */
  lemma {:induction false} BeforeTheWindowOvercounts(now: int)
    requires now < FIRST_MONTH
    ensures |FutureMonths(Bootstrap(now).calendar, now)| == 7 && RunOf(Bootstrap(now).calendar, RequestRecords, now, 0)
  {
    BootstrapMonths(now);
    var c := Bootstrap(now).calendar;
    forall i ensures i in FutureMonths(c, now) <==> FIRST_MONTH <= i < FIRST_MONTH + 7 {
      assert c.Has(RequestRecords, i) <==> Slot(RequestRecords, i) in c.slots;
    }
    assert FutureMonths(c, now) == Interval(FIRST_MONTH, 7);
  }

  // ---- The maintenance schedule ----

  /** Rows are written only in months that some maintenance run has reached: `until` is the last of them. */
  predicate OnSchedule(ops: seq<Op>, now: int, until: int)
    decreases |ops|
  {
    ops == [] ||
    match ops[0]
    case Tick(n) => OnSchedule(ops[1..], now + n, until)
    case Ensure(k) => OnSchedule(ops[1..], now, if k >= 1 && until < now + k then now + k else until)
    case Prune(_, _) => OnSchedule(ops[1..], now, until)
    case Write(_, _) => now <= until && OnSchedule(ops[1..], now, until)
  }

  ghost predicate CoveredThrough(c: Calendar, now: int, until: int) {
    forall t, m :: now <= m <= until ==> c.Has(t, m)
  }

  /** Every row written lands in its month's slot, and every maintenance run with a legal argument succeeds. */
  ghost predicate Served(s: System, ops: seq<Op>)
    decreases |ops|
  {
    ops == [] ||
    (&& Served(Step(s, ops[0]), ops[1..])
     && match ops[0]
        case Write(t, id) =>
          var c := Step(s, ops[0]).calendar;
          s.calendar.Has(t, s.now) && c.Has(t, s.now) && Row(id, s.now) in c.slots[Slot(t, s.now)]
        case Ensure(k) => k >= 1 ==> Extended(s.calendar, s.now, k).Some?
        case _ => true)
  }

  lemma {:induction false} ScheduledRun(s: System, ops: seq<Op>, until: int)
    requires OnSchedule(ops, s.now, until) && CoveredThrough(s.calendar, s.now, until)
    requires s.calendar.requestDefault == [] && s.calendar.errorDefault == []
    ensures var c := Run(s, ops).calendar; c.requestDefault == [] && c.errorDefault == []
    ensures Served(s, ops)
    decreases |ops|
  {
    if ops != [] {
      var next := Step(s, ops[0]);
      var reached := until;
      match ops[0] {
        case Ensure(k) =>
          if k >= 1 {
            ExtendedMonths(s.calendar, s.now, k);
            reached := if until < s.now + k then s.now + k else until;
          }
        case Tick(_) =>
        case _ => OtherStepsKeepMonths(s, ops[0]);
      }
      ScheduledRun(next, ops[1..], reached);
    }
  }

  /** From the bootstrap on, a schedule that stays ahead of the writes keeps DEFAULT empty and is never refused. */
  lemma {:induction false} ScheduleKeepsDefaultEmpty(now: int, ops: seq<Op>)
    requires FIRST_MONTH <= now && OnSchedule(ops, now, FIRST_MONTH + 6)
    ensures var c := Run(Bootstrap(now), ops).calendar; c.requestDefault == [] && c.errorDefault == []
    ensures Served(Bootstrap(now), ops)
  {
    BootstrapMonths(now);
    ScheduledRun(Bootstrap(now), ops, FIRST_MONTH + 6);
  }

  /** No prune of the history reaches month m. */
  predicate Retains(ops: seq<Op>, now: int, m: int)
    decreases |ops|
  {
    ops == [] ||
    match ops[0]
    case Tick(n) => Retains(ops[1..], now + n, m)
    case Prune(k, dryRun) => (k >= 1 && !dryRun ==> m >= now - k) && Retains(ops[1..], now, m)
    case _ => Retains(ops[1..], now, m)
  }

  /** A filed row stays where it is, in order, until its month is pruned. */
  lemma {:induction false} RowsAreKept(s: System, ops: seq<Op>, slot: Slot)
    requires slot in s.calendar.slots && Retains(ops, s.now, slot.month)
    ensures var c := Run(s, ops).calendar; slot in c.slots && s.calendar.slots[slot] <= c.slots[slot]
    decreases |ops|
  {
    if ops != [] {
      RowsAreKept(Step(s, ops[0]), ops[1..], slot);
    }
  }

  /** The clock stays within the month. */
  predicate SameMonth(ops: seq<Op>) {
    forall op :: op in ops && op.Tick? ==> op.months == 0
  }

  lemma {:induction false} StrayStays(s: System, ops: seq<Op>, t: Table, row: Row)
    requires !s.calendar.Has(t, s.now) && row.month == s.now && row in s.calendar.Default(t) && SameMonth(ops)
    ensures var r := Run(s, ops);
            r.now == s.now && !r.calendar.Has(t, s.now) && row in r.calendar.Default(t)
    decreases |ops|
  {
    if ops != [] {
      assert ops[0] in ops;
      match ops[0] {
        case Ensure(k) => StrayBlocks(s.calendar, s.now, t, row, k);
        case Tick(_) =>
        case _ => OtherStepsKeepMonths(s, ops[0]);
      }
      StrayStays(Step(s, ops[0]), ops[1..], t, row);
    }
  }

  lemma {:induction false} StrayBlocks(c: Calendar, now: int, t: Table, row: Row, k: int)
    requires !c.Has(t, now) && row.month == now && row in c.Default(t)
    ensures Extended(c, now, k).None?
  {
    assert Blocked(c, Slot(t, now));
    if k >= 1 {
      assert t == RequestRecords || t == ErrorRecords;
      assert Slot(t, now) in Wanted(now, k);
    }
  }

  /**
   * Once a row of this month is in DEFAULT, every maintenance run for the rest of the month is refused, whatever else
   * is done, so that the missing partitions cannot be created before the row is moved.
   */
  lemma {:induction false} StrayRowBlocksThisMonth(s: System, t: Table, id: nat, ops: seq<Op>, monthsAhead: int)
    requires !s.calendar.Has(t, s.now) && SameMonth(ops)
    ensures var later := Run(Step(s, Write(t, id)), ops);
            && Extended(later.calendar, s.now, monthsAhead).None?
            && Step(later, Ensure(monthsAhead)) == later
  {
    var stray, row := Step(s, Write(t, id)), Row(id, s.now);
    StrayStays(stray, ops, t, row);
    StrayBlocks(Run(stray, ops).calendar, s.now, t, row, monthsAhead);
  }

  // ---- What is in DEFAULT ----

  /** The rows of t that a history writes while their month has no slot. */
  function Strays(s: System, ops: seq<Op>, t: Table): seq<Row>
    decreases |ops|
  {
    if ops == [] then []
    else
      var op := ops[0];
      (if op.Write? && op.table == t && !s.calendar.Has(t, s.now) then [Row(op.id, s.now)] else [])
      + Strays(Step(s, op), ops[1..], t)
  }

  /** Every write of the history finds its month covered. */
  predicate WritesCovered(s: System, ops: seq<Op>)
    decreases |ops|
  {
    ops == [] ||
    ((ops[0].Write? ==> s.calendar.Has(ops[0].table, s.now)) && WritesCovered(Step(s, ops[0]), ops[1..]))
  }

  /** DEFAULT only grows, and exactly by the strays, in order. */
  lemma {:induction false} DefaultIsTheStrays(s: System, ops: seq<Op>, t: Table)
    ensures Run(s, ops).calendar.Default(t) == s.calendar.Default(t) + Strays(s, ops, t)
    decreases |ops|
  {
    if ops != [] {
      var next := Step(s, ops[0]);
      DefaultIsTheStrays(next, ops[1..], t);
      var stray := if ops[0].Write? && ops[0].table == t
        && !s.calendar.Has(t, s.now) then [Row(ops[0].id, s.now)] else [];
      assert next.calendar.Default(t) == s.calendar.Default(t) + stray;
    }
  }

  lemma {:induction false} CoveredMeansNoStrays(s: System, ops: seq<Op>)
    ensures WritesCovered(s, ops) <==> Strays(s, ops, RequestRecords) == [] && Strays(s, ops, ErrorRecords) == []
    decreases |ops|
  {
    if ops != [] {
      CoveredMeansNoStrays(Step(s, ops[0]), ops[1..]);
    }
  }

  /** After any history from the bootstrap, both DEFAULTs are empty exactly when every write found its month covered. */
  lemma {:induction false} DefaultsEmptyIffCovered(now: int, ops: seq<Op>)
    ensures var c := Run(Bootstrap(now), ops).calendar;
            c.requestDefault == [] && c.errorDefault == [] <==> WritesCovered(Bootstrap(now), ops)
  {
    DefaultIsTheStrays(Bootstrap(now), ops, RequestRecords);
    DefaultIsTheStrays(Bootstrap(now), ops, ErrorRecords);
    CoveredMeansNoStrays(Bootstrap(now), ops);
  }

  // ---- The readiness check ----

  /**
   * After any history, `pass` means exactly that no request row has strayed and that this month and the next are
   * covered, in both tables, with no further maintenance.
   */
  lemma {:induction false} PassCoversNextMonth(now: int, ops: seq<Op>)
    requires FIRST_MONTH <= now
    ensures var s := Run(Bootstrap(now), ops);
            CheckCalendar(s.calendar, s.now) == Pass <==>
              Strays(Bootstrap(now), ops, RequestRecords) == [] && CoveredThrough(s.calendar, s.now, s.now + 1)
  {
    RunwayIsReal(now, ops);
    DefaultIsTheStrays(Bootstrap(now), ops, RequestRecords);
    var s := Run(Bootstrap(now), ops);
    var n := |FutureMonths(s.calendar, s.now)|;
    assert RunOf(s.calendar, RequestRecords, s.now, n) && RunOf(s.calendar, ErrorRecords, s.now, n);
    if n >= 2 {
      forall t, m | s.now <= m <= s.now + 1 ensures s.calendar.Has(t, m) {
        assert RunOf(s.calendar, t, s.now, n);
      }
    } else {
      assert !s.calendar.Has(RequestRecords, s.now + n);
    }
  }

  /**
   * After any history from the bootstrap the check fails exactly when a request row has strayed. Error rows that have
   * strayed make no difference: the verdict is the same with them taken away.
   */
  lemma {:induction false} CheckSeesRequestStraysOnly(now: int, ops: seq<Op>)
    ensures var start, s := Bootstrap(now), Run(Bootstrap(now), ops);
            && (CheckCalendar(s.calendar, s.now) == Fail <==> Strays(start, ops, RequestRecords) != [])
            && s.calendar.errorDefault == Strays(start, ops, ErrorRecords)
            && CheckCalendar(s.calendar.(errorDefault := []), s.now) == CheckCalendar(s.calendar, s.now)
  {
    DefaultIsTheStrays(Bootstrap(now), ops, RequestRecords);
    DefaultIsTheStrays(Bootstrap(now), ops, ErrorRecords);
    var s := Run(Bootstrap(now), ops);
    assert FutureMonths(s.calendar.(errorDefault := []), s.now) == FutureMonths(s.calendar, s.now);
  }

  /** The check reads one DEFAULT of the two: an error row written off schedule is not seen. */
  lemma {:induction false} PassMissesErrorDefault()
    ensures var s := Run(Bootstrap(FIRST_MONTH), [Tick(10), Write(ErrorRecords, 1), Tick(1), Ensure(12)]);
            CheckCalendar(s.calendar, s.now) == Pass && s.calendar.errorDefault != []
  {
    var s0 := Bootstrap(FIRST_MONTH);
    var s1 := Step(s0, Tick(10));
    var s2 := Step(s1, Write(ErrorRecords, 1));
    var s3 := Step(s2, Tick(1));
    var s4 := Step(s3, Ensure(12));
    BootstrapMonths(FIRST_MONTH);
    RunFour(s0, Tick(10), Write(ErrorRecords, 1), Tick(1), Ensure(12));
    assert !exists s :: s in Wanted(s3.now, 12) && Blocked(s3.calendar, s);
    ExtendedMonths(s3.calendar, s3.now, 12);
    var future := FutureMonths(s4.calendar, s4.now);
    assert Slot(RequestRecords, s4.now) in s4.calendar.slots
      && Slot(RequestRecords, s4.now + 1) in s4.calendar.slots by {
      assert s4.calendar.Has(RequestRecords, s4.now) && s4.calendar.Has(RequestRecords, s4.now + 1);
    }
    assert {s4.now, s4.now + 1} <= future;
    assert |future| == |future - {s4.now, s4.now + 1}| + |{s4.now, s4.now + 1}|;
  }

  lemma {:induction false} RunFour(s: System, a: Op, b: Op, c: Op, d: Op)
    ensures Run(s, [a, b, c, d]) == Step(Step(Step(Step(s, a), b), c), d)
  {
    assert [a, b, c, d][1..] == [b, c, d] && [b, c, d][1..] == [c, d] && [c, d][1..] == [d] && [d][1..] == [];
    var s1, s2, s3 := Step(s, a), Step(Step(s, a), b), Step(Step(Step(s, a), b), c);
    assert Run(s3, [d]) == Step(s3, d);
    assert Run(s2, [c, d]) == Run(s3, [d]);
    assert Run(s1, [b, c, d]) == Run(s2, [c, d]);
  }
}
