/** The named partitions refine the calendar: every operation on names is the rule on months. */
module ReqlogRefinement {
  import opened ReqlogCalendar
  import opened ReqlogNames
  import opened ReqlogPartitions
  import opened Wrappers

  /** k is the months and rows behind the names of c. */
  ghost predicate Represents(names: Naming, c: Catalog, k: Calendar) {
    && Valid(names, c)
    && k.requestDefault == c.requestDefault && k.errorDefault == c.errorDefault
    && (forall s: Slot :: s in k.slots <==> Covers(names, c, s.table, s.month))
    && forall s :: s in k.slots ==> c.children[names.child(s.table, s.month)] == Partition(s.table, s.month, k.slots[s])
  }

  /** The children of a table whose range holds a month. */
  ghost function Routes(c: Catalog, t: Table, m: int): set<string> {
    set name | name in c.children && c.children[name].parent == t
      && c.children[name].month <= m < c.children[name].month + 1
  }

  /** Ranges do not overlap: a covered month routes to the one child of its name, any other month to none. */
  lemma {:induction false} RoutesToOne(names: Naming, c: Catalog, k: Calendar, t: Table, m: int)
    requires Represents(names, c, k)
    ensures Routes(c, t, m) == if k.Has(t, m) then {names.child(t, m)} else {}
  {
    forall name | name in Routes(c, t, m) ensures k.Has(t, m) && name == names.child(t, m) {
      assert WellNamed(names, name, c.children[name]);
      assert Covers(names, c, t, m);
    }
  }

  /** Putting a partition under its own name is putting its rows in its slot. */
  lemma {:induction false} UpdateRepresents(names: Naming, c: Catalog, k: Calendar, t: Table, m: int, rows: seq<Row>)
    requires Lawful(names) && Represents(names, c, k) && InFourDigitYears(m) && forall r :: r in rows ==> r.month == m
    ensures Represents(names, c.(children := c.children[names.child(t, m) := Partition(t, m, rows)]),
                       k.(slots := k.slots[Slot(t, m) := rows]))
  {
    var name, c', k' := names.child(t, m), c.(children := c.children[names.child(t, m) := Partition(t, m, rows)]),
                        k.(slots := k.slots[Slot(t, m) := rows]);
    forall s: Slot
      ensures s in k'.slots <==> Covers(names, c', s.table, s.month)
      ensures s in k'.slots ==> c'.children[names.child(s.table, s.month)] == Partition(s.table, s.month, k'.slots[s])
    {
      if InFourDigitYears(s.month) {
        assert names.child(s.table, s.month) == name ==> s == Slot(t, m);
      }
    }
  }

  // ---- Maintenance ----

  function SlotsOf(t: Table, from: int, n: nat): set<Slot> {
    set m | from <= m < from + n :: Slot(t, m)
  }

  /** The slots of ts added, with nothing in them. */
  function WithSlots(k: Calendar, ts: set<Slot>): Calendar {
    k.(slots := (map s | s in ts :: []) + k.slots)
  }

  lemma {:induction false} WithMoreSlots(k: Calendar, a: set<Slot>, b: set<Slot>)
    ensures WithSlots(WithSlots(k, a), b) == WithSlots(k, a + b)
    ensures forall s :: s !in a ==> (Blocked(WithSlots(k, a), s) <==> Blocked(k, s))
  {
    assert WithSlots(WithSlots(k, a), b).slots == WithSlots(k, a + b).slots;
  }

  /** The rule on a set of slots: nothing when one is blocked, else all of them. */
  ghost predicate Adds(names: Naming, r: Option<Catalog>, k: Calendar, ts: set<Slot>) {
    match r
    case None => exists s :: s in ts && Blocked(k, s)
    case Some(c) => (forall s :: s in ts ==> !Blocked(k, s)) && Represents(names, c, WithSlots(k, ts))
  }

  /** Adding disjoint sets of slots one after the other is adding their union. */
  lemma {:induction false} AddsBoth(
      names: Naming, first: Option<Catalog>, second: Option<Catalog>, k: Calendar, a: set<Slot>, b: set<Slot>)
    requires a !! b && Adds(names, first, k, a)
    requires if first.None? then second.None? else Adds(names, second, WithSlots(k, a), b)
    ensures Adds(names, second, k, a + b)
  {
    WithMoreSlots(k, a, b);
    if first.None? {
      var s :| s in a && Blocked(k, s);
      assert s in a + b;
    } else if second.None? {
      var s :| s in b && Blocked(WithSlots(k, a), s);
      assert s in a + b && Blocked(k, s);
    }
  }

  lemma {:induction false} EnsureMonthRefines(names: Naming, c: Catalog, k: Calendar, t: Table, m: int)
    requires Lawful(names) && Represents(names, c, k) && InFourDigitYears(m)
    ensures Adds(names, EnsureMonth(names, c, t, m), k, {Slot(t, m)})
  {
    assert k.Has(t, m) <==> Covers(names, c, t, m);
    assert Slot(t, m) in {Slot(t, m)};
    var added := WithSlots(k, {Slot(t, m)});
    if k.Has(t, m) {
      assert added.slots == k.slots;
    } else {
      UpdateRepresents(names, c, k, t, m, []);
      assert added.slots == k.slots[Slot(t, m) := []];
    }
  }

  lemma {:induction false} SlotsOfStep(t: Table, from: int, n: nat)
    ensures if n == 0 then SlotsOf(t, from, n) == {}
            else Slot(t, from + n - 1) !in SlotsOf(t, from, n - 1)
                 && SlotsOf(t, from, n) == SlotsOf(t, from, n - 1) + {Slot(t, from + n - 1)}
  {}

  lemma {:induction false} AddsNothing(names: Naming, c: Catalog, k: Calendar)
    requires Represents(names, c, k)
    ensures Adds(names, Some(c), k, {})
  {
    assert WithSlots(k, {}).slots == k.slots;
  }

  lemma {:induction false} OneMoreMonth(names: Naming, before: Option<Catalog>, after: Option<Catalog>, k: Calendar,
                                        fewer: set<Slot>, all: set<Slot>, t: Table, m: int)
    requires Lawful(names) && InFourDigitYears(m) && Slot(t, m) !in fewer && all == fewer + {Slot(t, m)}
    requires Adds(names, before, k, fewer)
    requires after == if before.None? then None else EnsureMonth(names, before.value, t, m)
    ensures Adds(names, after, k, all)
  {
    if before.Some? {
      EnsureMonthRefines(names, before.value, WithSlots(k, fewer), t, m);
    }
    AddsBoth(names, before, after, k, fewer, {Slot(t, m)});
  }

  lemma {:induction false} LastMonth(names: Naming, c: Catalog, t: Table, from: int, n: nat, before: Option<Catalog>)
    requires n > 0 && InFourDigitYears(from) && InFourDigitYears(from + n - 1)
    requires before == EnsureMonths(names, c, t, from, n - 1)
    ensures EnsureMonths(names, c, t, from, n) ==
            if before.None? then None else EnsureMonth(names, before.value, t, from + n - 1)
  {}

  lemma {:induction false} EnsureMonthsStep(
      names: Naming, c: Catalog, k: Calendar, t: Table, from: int, n: nat,
      before: Option<Catalog>, fewer: set<Slot>, r: Option<Catalog>, ts: set<Slot>)
    requires Lawful(names) && n > 0 && InFourDigitYears(from) && InFourDigitYears(from + n - 1)
    requires before == EnsureMonths(names, c, t, from, n - 1) && fewer == SlotsOf(t, from, n - 1)
    requires r == EnsureMonths(names, c, t, from, n) && ts == SlotsOf(t, from, n)
    requires Adds(names, before, k, fewer)
    ensures Adds(names, r, k, ts)
  {
    SlotsOfStep(t, from, n);
    LastMonth(names, c, t, from, n, before);
    OneMoreMonth(names, before, r, k, fewer, ts, t, from + n - 1);
  }

  lemma {:induction false} EnsureMonthsRefine(
      names: Naming, c: Catalog, k: Calendar, t: Table, from: int, n: nat, r: Option<Catalog>, ts: set<Slot>)
    requires Lawful(names) && Represents(names, c, k)
    requires n > 0 ==> InFourDigitYears(from) && InFourDigitYears(from + n - 1)
    requires r == EnsureMonths(names, c, t, from, n) && ts == SlotsOf(t, from, n)
    ensures Adds(names, r, k, ts)
    decreases n
  {
    if n == 0 {
      SlotsOfStep(t, from, n);
      AddsNothing(names, c, k);
    } else {
      var before, fewer := EnsureMonths(names, c, t, from, n - 1), SlotsOf(t, from, n - 1);
      EnsureMonthsRefine(names, c, k, t, from, n - 1, before, fewer);
      EnsureMonthsStep(names, c, k, t, from, n, before, fewer, r, ts);
    }
  }

  lemma {:induction false} EnsureBothRefines(names: Naming, c: Catalog, k: Calendar, from: int, n: nat)
    requires Lawful(names) && Represents(names, c, k)
            && (n > 0 ==> InFourDigitYears(from) && InFourDigitYears(from + n - 1))
    ensures Adds(names, EnsureBoth(names, c, from, n), k,
            SlotsOf(RequestRecords, from, n) + SlotsOf(ErrorRecords, from, n))
  {
    var requests, errors := SlotsOf(RequestRecords, from, n), SlotsOf(ErrorRecords, from, n);
    var first, both := EnsureMonths(names, c, RequestRecords, from, n), EnsureBoth(names, c, from, n);
    EnsureMonthsRefine(names, c, k, RequestRecords, from, n, first, requests);
    if first.Some? {
      EnsureMonthsRefine(names, first.value, WithSlots(k, requests), ErrorRecords, from, n, both, errors);
    }
    AddsBoth(names, first, both, k, requests, errors);
  }

  /** ensure_partitions, two tables of named months in nested loops, is the all-or-nothing rule on months. */
  lemma {:induction false} EnsureRefines(names: Naming, c: Catalog, k: Calendar, now: int, ahead: int)
    requires Lawful(names) && Represents(names, c, k)
            && (ahead >= 1 ==> InFourDigitYears(now) && InFourDigitYears(now + ahead))
    ensures match Ensured(names, c, now, ahead)
            case None => Extended(k, now, ahead) == None
            case Some(r) => Extended(k, now, ahead).Some? && Represents(names, r, Extended(k, now, ahead).value)
  {
    if ahead >= 1 {
      EnsureBothRefines(names, c, k, now, ahead + 1);
      assert SlotsOf(RequestRecords, now, ahead + 1) + SlotsOf(ErrorRecords, now, ahead + 1) == Wanted(now, ahead);
    }
  }

  /** drop_expired_partitions, which parses names, is the rule on months. */
  lemma {:induction false} PruneRefines(names: Naming, c: Catalog, k: Calendar, now: int, retain: int, dryRun: bool)
    requires Lawful(names) && Represents(names, c, k)
    ensures match Pruned(names, c, now, retain, dryRun)
            case None => Trimmed(k, now, retain, dryRun) == None
            case Some(r) =>
              Trimmed(k, now, retain, dryRun).Some? && Represents(names, r, Trimmed(k, now, retain, dryRun).value)
  {
    if retain >= 1 && !dryRun {
      var c', k' := Pruned(names, c, now, retain, false).value, Trimmed(k, now, retain, false).value;
      forall s: Slot
        ensures s in k'.slots <==> Covers(names, c', s.table, s.month)
        ensures s in k'.slots ==> c'.children[names.child(s.table, s.month)] == Partition(s.table, s.month, k'.slots[s])
      {
        assert s in k.slots <==> Covers(names, c, s.table, s.month);
      }
    }
  }

  /** Routing a row by range is filing it under its month. */
  lemma {:induction false} InsertRefines(names: Naming, c: Catalog, k: Calendar, t: Table, row: Row)
    requires Lawful(names) && Represents(names, c, k)
    ensures Represents(names, Inserted(names, c, t, row), Filed(k, t, row))
  {
    assert k.Has(t, row.month) <==> Covers(names, c, t, row.month);
    if k.Has(t, row.month) {
      var rows := k.slots[Slot(t, row.month)];
      assert WellNamed(names, names.child(t, row.month), Partition(t, row.month, rows));
      UpdateRepresents(names, c, k, t, row.month, rows + [row]);
    }
  }

  // ---- The readiness query ----

  lemma {:induction false} SameSize(names: Naming, children: set<string>, months: set<int>)
    requires forall name :: name in children ==>
      names.month(name).Some? && names.month(name).value in months
        && name == names.child(RequestRecords, names.month(name).value)
    requires forall m :: m in months ==>
            names.child(RequestRecords, m) in children && names.month(names.child(RequestRecords, m)) == Some(m)
    ensures |children| == |months|
    decreases children
  {
    if children == {} {
      assert forall m :: m in months ==> names.child(RequestRecords, m) in children;
      assert months == {};
    } else {
      var name :| name in children;
      SameSize(names, children - {name}, months - {names.month(name).value});
    }
  }

  /** Counting the monthly names of the request table from now on is counting its future months. */
  lemma {:induction false} RunwayRefines(names: Naming, c: Catalog, k: Calendar, now: int)
    requires Lawful(names) && Represents(names, c, k)
    ensures MonthsAhead(names, c, now) == |FutureMonths(k, now)|
    ensures CheckReqlogPartitions(names, c, now) == CheckCalendar(k, now)
  {
    var runway, months := Runway(names, c, now), FutureMonths(k, now);
    forall name | name in runway
      ensures names.month(name).Some? && names.month(name).value in months
              && name == names.child(RequestRecords, names.month(name).value)
    {
      assert WellNamed(names, name, c.children[name]);
      assert Covers(names, c, RequestRecords, c.children[name].month);
      assert Slot(RequestRecords, c.children[name].month) in k.slots;
    }
    forall m | m in months
      ensures names.child(RequestRecords, m) in runway && names.month(names.child(RequestRecords, m)) == Some(m)
    {
      assert Slot(RequestRecords, m) in k.slots && Covers(names, c, RequestRecords, m);
    }
    SameSize(names, runway, months);
  }

  // ---- Histories ----

  datatype Named = Named(catalog: Catalog, now: int)

  predicate StepDated(now: int, op: Op) {
    op.Ensure? && op.monthsAhead >= 1 ==> InFourDigitYears(now) && InFourDigitYears(now + op.monthsAhead)
  }

  function NamedStep(names: Naming, s: Named, op: Op): Named
    requires StepDated(s.now, op)
  {
    match op
    case Tick(n) => s.(now := s.now + n)
    case Ensure(k) => s.(catalog := Ensured(names, s.catalog, s.now, k).GetOr(s.catalog))
    case Prune(k, dryRun) => s.(catalog := Pruned(names, s.catalog, s.now, k, dryRun).GetOr(s.catalog))
    case Write(t, id) => s.(catalog := Inserted(names, s.catalog, t, Row(id, s.now)))
  }

  /** Every maintenance run stays within four-digit years. */
  predicate Dated(now: int, ops: seq<Op>)
    decreases |ops|
  {
    ops == [] || (StepDated(now, ops[0]) && Dated(if ops[0].Tick? then now + ops[0].months else now, ops[1..]))
  }

  function NamedRun(names: Naming, s: Named, ops: seq<Op>): Named
    requires Dated(s.now, ops)
    decreases |ops|
  {
    if ops == [] then s else NamedRun(names, NamedStep(names, s, ops[0]), ops[1..])
  }

  lemma {:induction false} NamedStepRefines(names: Naming, s: Named, k: System, op: Op)
    requires Lawful(names) && Represents(names, s.catalog, k.calendar) && s.now == k.now && StepDated(s.now, op)
    ensures var s', k' := NamedStep(names, s, op), Step(k, op);
            Represents(names, s'.catalog, k'.calendar) && s'.now == k'.now
  {
    match op {
      case Tick(_) =>
      case Ensure(ahead) => EnsureRefines(names, s.catalog, k.calendar, s.now, ahead);
      case Prune(retain, dryRun) => PruneRefines(names, s.catalog, k.calendar, s.now, retain, dryRun);
      case Write(t, id) => InsertRefines(names, s.catalog, k.calendar, t, Row(id, s.now));
    }
  }

  /** A history of the named partitions is a history of the calendar. */
  lemma {:induction false} NamedRunRefines(names: Naming, s: Named, k: System, ops: seq<Op>)
    requires Lawful(names) && Represents(names, s.catalog, k.calendar) && s.now == k.now && Dated(s.now, ops)
    ensures var s', k' := NamedRun(names, s, ops), Run(k, ops);
            Represents(names, s'.catalog, k'.calendar) && s'.now == k'.now
    decreases |ops|
  {
    if ops != [] {
      NamedStepRefines(names, s, k, ops[0]);
      NamedRunRefines(names, NamedStep(names, s, ops[0]), Step(k, ops[0]), ops[1..]);
    }
  }

  /** The bootstrap loop makes the calendar that histories start from. */
  lemma {:induction false} BootstrapRefines(names: Naming, now: int)
    requires Lawful(names)
    ensures var c := EnsureBoth(names, EMPTY_CATALOG, FIRST_MONTH, 7);
            c.Some? && Represents(names, c.value, Bootstrap(now).calendar)
  {
    var none := Calendar(map[], [], []);
    var both := SlotsOf(RequestRecords, FIRST_MONTH, 7) + SlotsOf(ErrorRecords, FIRST_MONTH, 7);
    EnsureBothRefines(names, EMPTY_CATALOG, none, FIRST_MONTH, 7);
    assert forall s :: s in both ==> !Blocked(none, s);
    assert both == Wanted(FIRST_MONTH, 6);
    assert WithSlots(none, both).slots == Bootstrap(now).calendar.slots;
  }

  /**
   * The readiness numbers of any named history are real: each of the monthsAhead months routes to exactly one
   * partition of each table, the next month to none, and `pass` promises this month and the next.
   */
  lemma {:induction false} NamedRunwayIsReal(names: Naming, now: int, ops: seq<Op>)
    requires Lawful(names) && FIRST_MONTH <= now && Dated(now, ops)
    ensures var start := EnsureBoth(names, EMPTY_CATALOG, FIRST_MONTH, 7);
            && start.Some?
            && var s := NamedRun(names, Named(start.value, now), ops);
            && var ahead := MonthsAhead(names, s.catalog, s.now);
            && (forall t, m :: s.now <= m < s.now + ahead ==> |Routes(s.catalog, t, m)| == 1)
            && (forall t, m :: m == s.now + ahead ==> Routes(s.catalog, t, m) == {})
            && (CheckReqlogPartitions(names, s.catalog, s.now) == Pass ==>
                  forall t, m :: s.now <= m <= s.now + 1 ==> |Routes(s.catalog, t, m)| == 1)
  {
    BootstrapRefines(names, now);
    var start := Named(EnsureBoth(names, EMPTY_CATALOG, FIRST_MONTH, 7).value, now);
    NamedRunRefines(names, start, Bootstrap(now), ops);
    var s, k := NamedRun(names, start, ops), Run(Bootstrap(now), ops);
    RunwayIsReal(now, ops);
    RunwayRefines(names, s.catalog, k.calendar, s.now);
    RoutesFollowRun(names, s.catalog, k.calendar, s.now, MonthsAhead(names, s.catalog, s.now));
  }

  lemma {:induction false} RoutesFollowRun(names: Naming, c: Catalog, k: Calendar, now: int, n: nat)
    requires Represents(names, c, k) && forall t :: RunOf(k, t, now, n)
    ensures forall t, m :: now <= m < now + n ==> |Routes(c, t, m)| == 1
    ensures forall t, m :: m == now + n ==> Routes(c, t, m) == {}
  {
    forall t, m | now <= m <= now + n ensures Routes(c, t, m) == if m < now + n then {names.child(t, m)} else {} {
      RoutesToOne(names, c, k, t, m);
      assert RunOf(k, t, now, n);
    }
  }
}
