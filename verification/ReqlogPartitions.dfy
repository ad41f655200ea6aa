/**
 * Monthly partitions of the request log: created ahead, pruned behind, found again by name
 * (deploy/database/ddl/incr/02_reqlog_partition_maintenance.sql and the bootstrap in 00_baseline.sql).
 */
module ReqlogPartitions {
  import opened ReqlogNames
  import opened Wrappers

  datatype Row = Row(id: nat, month: int)

  /** A child table: its parent, the month it holds, and its rows. */
  datatype Partition = Partition(parent: Table, month: int, rows: seq<Row>)

  /** The children by name, and the rows of the two DEFAULT partitions. */
  datatype Catalog = Catalog(children: map<string, Partition>, requestDefault: seq<Row>, errorDefault: seq<Row>) {
    function Default(t: Table): seq<Row> {
      if t.RequestRecords? then requestDefault else errorDefault
    }
  }

  /** A child named after its parent and month, as both creating loops name it, holding rows of that month. */
  ghost predicate WellNamed(names: Naming, name: string, p: Partition) {
    && InFourDigitYears(p.month) && name == names.child(p.parent, p.month)
    && forall r :: r in p.rows ==> r.month == p.month
  }

  ghost predicate Valid(names: Naming, c: Catalog) {
    forall name :: name in c.children ==> WellNamed(names, name, c.children[name])
  }

  predicate Covers(names: Naming, c: Catalog, t: Table, m: int) {
    InFourDigitYears(m) && names.child(t, m) in c.children
  }

  // ---- The maintenance functions ----

  predicate HoldsMonth(rows: seq<Row>, m: int) {
    exists r :: r in rows && r.month == m
  }

  /** Creating one partition; PostgreSQL refuses while DEFAULT holds a row of its range. */
  function EnsureMonth(names: Naming, c: Catalog, t: Table, m: int): Option<Catalog>
    requires InFourDigitYears(m)
  {
    if names.child(t, m) in c.children then Some(c)
    else if HoldsMonth(c.Default(t), m) then None
    else Some(c.(children := c.children[names.child(t, m) := Partition(t, m, [])]))
  }

  /** The months from `from` to `from + n - 1` of one table. */
  function EnsureMonths(names: Naming, c: Catalog, t: Table, from: int, n: nat): Option<Catalog>
    requires n > 0 ==> InFourDigitYears(from) && InFourDigitYears(from + n - 1)
  {
    if n == 0 then Some(c)
    else
      var before := EnsureMonths(names, c, t, from, n - 1);
      if before.None? then None else EnsureMonth(names, before.value, t, from + n - 1)
  }

  function EnsureBoth(names: Naming, c: Catalog, from: int, n: nat): Option<Catalog>
    requires n > 0 ==> InFourDigitYears(from) && InFourDigitYears(from + n - 1)
  {
    var first := EnsureMonths(names, c, RequestRecords, from, n);
    if first.None? then None else EnsureMonths(names, first.value, ErrorRecords, from, n)
  }

  /** ensure_partitions: None when it raises, and then the whole call is rolled back. */
  function Ensured(names: Naming, c: Catalog, now: int, monthsAhead: int): Option<Catalog>
    requires monthsAhead >= 1 ==> InFourDigitYears(now) && InFourDigitYears(now + monthsAhead)
  {
    if monthsAhead < 1 then None else EnsureBoth(names, c, now, monthsAhead + 1)
  }

  predicate IsExpired(names: Naming, name: string, cutoff: int) {
    names.month(name).Some? && names.month(name).value < cutoff
  }

  /** drop_expired_partitions. */
  function Pruned(names: Naming, c: Catalog, now: int, retainMonths: int, dryRun: bool): Option<Catalog> {
    if retainMonths < 1 then None
    else if dryRun then Some(c)
    else Some(c.(children := map name | name in c.children
      && !IsExpired(names, name, now - retainMonths) :: c.children[name]))
  }

  /** A row goes to the child whose range holds its month, or to DEFAULT. */
  function Inserted(names: Naming, c: Catalog, t: Table, r: Row): Catalog {
    if Covers(names, c, t, r.month) then
      var name := names.child(t, r.month);
      c.(children := c.children[name := c.children[name].(rows := c.children[name].rows + [r])])
    else if t.RequestRecords? then c.(requestDefault := c.requestDefault + [r])
    else c.(errorDefault := c.errorDefault + [r])
  }

  /** The runway query: monthly children of the request table that start this month or later. */
  function Runway(names: Naming, c: Catalog, now: int): set<string> {
    set name | name in c.children && c.children[name].parent == RequestRecords && names.month(name).Some?
      && names.month(name).value >= now
  }

  function MonthsAhead(names: Naming, c: Catalog, now: int): nat {
    |Runway(names, c, now)|
  }

  datatype Verdict = Pass | Warn | Fail

  /** The readiness check over the two numbers of the runway query. */
  function CheckReqlogPartitions(names: Naming, c: Catalog, now: int): Verdict {
    if |c.requestDefault| > 0 then Fail else if MonthsAhead(names, c, now) < 2 then Warn else Pass
  }

  const FIRST_MONTH := 2026 * 12 + 6

  const EMPTY_CATALOG := Catalog(map[], [], [])

  // ---- The same functions, as the DDL runs them ----

  class ReqlogSchema {
    const names: Naming
    var children: map<string, Partition>
    var requestDefault: seq<Row>
    var errorDefault: seq<Row>

    function State(): Catalog
      reads this
    {
      Catalog(children, requestDefault, errorDefault)
    }

    /** The bootstrap: seven months from July 2026 for both tables, and empty DEFAULT partitions. */
    constructor (names: Naming)
      ensures this.names == names
      ensures Some(State()) == EnsureBoth(names, EMPTY_CATALOG, FIRST_MONTH, 7)
    {
      this.names := names;
      children, requestDefault, errorDefault := map[], [], [];
      new;
      var created := CreateMonths(RequestRecords, FIRST_MONTH, 7);
      EmptyDefaultsEnsure(names, EMPTY_CATALOG, RequestRecords, FIRST_MONTH, 7);
      EmptyDefaultsEnsure(names, State(), ErrorRecords, FIRST_MONTH, 7);
      created := CreateMonths(ErrorRecords, FIRST_MONTH, 7);
    }

    method CreateMonth(t: Table, m: int) returns (ok: bool)
      requires InFourDigitYears(m)
      modifies this`children
      ensures ok == EnsureMonth(names, old(State()), t, m).Some?
      ensures State() == EnsureMonth(names, old(State()), t, m).GetOr(old(State()))
    {
      var child := names.child(t, m);
      if child in children {
        return true;
      }
      if HoldsMonth(if t.RequestRecords? then requestDefault else errorDefault, m) {
        return false;
      }
      children := children[child := Partition(t, m, [])];
      ok := true;
    }

    /** The inner loop: every missing month of one table, or a refusal on the way. */
    method CreateMonths(t: Table, from: int, n: nat) returns (ok: bool)
      requires n > 0 ==> InFourDigitYears(from) && InFourDigitYears(from + n - 1)
      modifies this`children
      ensures ok == EnsureMonths(names, old(State()), t, from, n).Some?
      ensures ok ==> Some(State()) == EnsureMonths(names, old(State()), t, from, n)
    {
      ghost var start := State();
      ok := true;
      for i := 0 to n
        invariant ok && Some(State()) == EnsureMonths(names, start, t, from, i)
      {
        ghost var reached := State();
        ok := CreateMonth(t, from + i);
        assert EnsureMonths(names, start, t, from, i + 1) == EnsureMonth(names, reached, t, from + i);
        if !ok {
          NoneStays(names, start, t, from, i + 1, n);
          return;
        }
      }
    }

    method EnsurePartitions(now: int, monthsAhead: int) returns (ok: bool)
      requires monthsAhead >= 1 ==> InFourDigitYears(now) && InFourDigitYears(now + monthsAhead)
      modifies this`children
      ensures ok == Ensured(names, old(State()), now, monthsAhead).Some?
      ensures State() == Ensured(names, old(State()), now, monthsAhead).GetOr(old(State()))
    {
      if monthsAhead < 1 {
        return false;
      }
      var before := children;
      ok := CreateMonths(RequestRecords, now, monthsAhead + 1);
      if ok {
        ok := CreateMonths(ErrorRecords, now, monthsAhead + 1);
      }
      if !ok {
        children := before;
      }
    }

    method DropExpiredPartitions(now: int, retainMonths: int, dryRun: bool) returns (ok: bool)
      modifies this`children
      ensures ok == Pruned(names, old(State()), now, retainMonths, dryRun).Some?
      ensures State() == Pruned(names, old(State()), now, retainMonths, dryRun).GetOr(old(State()))
    {
      if retainMonths < 1 {
        return false;
      }
      var cutoff := now - retainMonths;
      var pending := children.Keys;
      while pending != {}
        invariant pending <= old(children).Keys
        invariant dryRun ==> children == old(children)
        invariant !dryRun ==>
          children ==
            map name | name in old(children) && (name in pending || !IsExpired(names, name, cutoff)) ::
              old(children)[name]
        decreases |pending|
      {
        var name :| name in pending;
        if IsExpired(names, name, cutoff) && !dryRun {
          children := map other | other in children && other != name :: children[other];
        }
        pending := pending - {name};
      }
      ok := true;
    }

    method Insert(t: Table, r: Row)
      modifies this
      ensures State() == Inserted(names, old(State()), t, r)
      ensures children.Keys == old(children.Keys)
      ensures forall name :: name in children ==>
        children[name] == old(children)[name]
        || (InFourDigitYears(r.month) && name == names.child(t, r.month)
            && children[name] == old(children)[name].(rows := old(children)[name].rows + [r]))
      ensures Covers(names, old(State()), t, r.month) || State().Default(t) == old(State()).Default(t) + [r]
    {
      if Covers(names, State(), t, r.month) {
        var name := names.child(t, r.month);
        children := children[name := children[name].(rows := children[name].rows + [r])];
      } else if t.RequestRecords? {
        requestDefault := requestDefault + [r];
      } else {
        errorDefault := errorDefault + [r];
      }
    }
  }

  lemma {:induction false} NoneStays(names: Naming, c: Catalog, t: Table, from: int, i: nat, n: nat)
    requires n > 0 ==> InFourDigitYears(from) && InFourDigitYears(from + n - 1)
    requires i <= n && EnsureMonths(names, c, t, from, i).None?
    ensures EnsureMonths(names, c, t, from, n).None?
    decreases n - i
  {
    if i < n {
      NoneStays(names, c, t, from, i + 1, n);
    }
  }

  lemma {:induction false} EmptyDefaultsEnsure(names: Naming, c: Catalog, t: Table, from: int, n: nat)
    requires n > 0 ==> InFourDigitYears(from) && InFourDigitYears(from + n - 1)
    requires c.Default(t) == []
    ensures var r := EnsureMonths(names, c, t, from, n);
            r.Some? && r.value.requestDefault == c.requestDefault && r.value.errorDefault == c.errorDefault
  {
    if n > 0 {
      EmptyDefaultsEnsure(names, c, t, from, n - 1);
    }
  }
}
