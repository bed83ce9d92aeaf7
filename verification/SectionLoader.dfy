/** The batched section loader against the per-container one, over the same table scanned in the same order. */
module SectionLoader {
  import opened Outcomes
  import opened StableOrder

  /** A table row; a missing column is SQL NULL. Comparison is exact. */
  type Row = map<string, string>

  /** `columns` are the safe result columns; a scope column is absent when the section does not use it. */
  datatype Section = Section(
    columns: seq<string>, tenantColumn: Option<string>, userColumn: Option<string>, workspaceColumn: Option<string>,
    brandColumn: Option<string>, systemColumn: Option<string>, statusColumn: Option<string>,
    activeStatuses: seq<string>, configuredLimit: int)

  /** The empty string stands for an absent value. */
  datatype Container = Container(key: string, tenant: string, workspace: string, brand: string, systems: seq<string>)

  datatype Subject = Subject(isAdmin: bool, tenant: string, user: string)

  /** Linked system references are split and blank ones dropped before they get here. */
  predicate ValidContainer(c: Container) {
    "" !in c.systems
  }

  predicate CellIs(r: Row, column: string, value: string) {
    column in r && r[column] == value
  }

  predicate CellIn(r: Row, column: string, values: seq<string>) {
    column in r && r[column] in values
  }

  function TenantOf(c: Container, s: Subject): string {
    if c.tenant != "" then c.tenant else s.tenant
  }

  predicate StatusAllows(x: Section, r: Row) {
    x.statusColumn.Some? && x.activeStatuses != [] ==> CellIn(r, x.statusColumn.value, x.activeStatuses)
  }

  // ---------------------------------------------------------------- the three row tests

  /** The WHERE clause of the per-container query. */
  predicate ContainerWhere(x: Section, c: Container, s: Subject, r: Row) {
    && (x.tenantColumn.Some? ==>
          if TenantOf(c, s) != "" then CellIs(r, x.tenantColumn.value, TenantOf(c, s)) else s.isAdmin)
    && (x.userColumn.Some? && (!s.isAdmin || s.user != "") ==>
          s.user != "" && CellIs(r, x.userColumn.value, s.user))
    && (x.workspaceColumn.Some? && c.workspace != "" ==> CellIs(r, x.workspaceColumn.value, c.workspace))
    && (x.brandColumn.Some? ==>
          if c.brand != "" then CellIs(r, x.brandColumn.value, c.brand) else s.isAdmin)
    && (x.systemColumn.Some? && c.systems != [] ==> CellIn(r, x.systemColumn.value, c.systems))
    && StatusAllows(x, r)
  }

  function NonEmpty(values: seq<string>): seq<string> {
    Filter(values, v => v != "")
  }

  function Tenants(cs: seq<Container>, s: Subject): seq<string> {
    NonEmpty(seq(|cs|, i requires 0 <= i < |cs| => TenantOf(cs[i], s)))
  }

  function Workspaces(cs: seq<Container>): seq<string> {
    NonEmpty(seq(|cs|, i requires 0 <= i < |cs| => cs[i].workspace))
  }

  function Brands(cs: seq<Container>): seq<string> {
    NonEmpty(seq(|cs|, i requires 0 <= i < |cs| => cs[i].brand))
  }

  function Systems(cs: seq<Container>): seq<string> {
    if cs == [] then [] else NonEmpty(cs[0].systems) + Systems(cs[1..])
  }

  /** The WHERE clause of the one query issued for all containers. */
  predicate BatchWhere(x: Section, cs: seq<Container>, s: Subject, r: Row) {
    && (x.tenantColumn.Some? ==>
          if Tenants(cs, s) != [] then CellIn(r, x.tenantColumn.value, Tenants(cs, s)) else s.isAdmin)
    && (x.userColumn.Some? ==> s.user != "" && CellIs(r, x.userColumn.value, s.user))
    && (x.workspaceColumn.Some? ==> CellIn(r, x.workspaceColumn.value, Workspaces(cs)))
    && (x.brandColumn.Some? ==> CellIn(r, x.brandColumn.value, Brands(cs)))
    && (x.systemColumn.Some? ==> CellIn(r, x.systemColumn.value, Systems(cs)))
    && StatusAllows(x, r)
  }

  function Shown(r: Row, column: string): string {
    if column in r then r[column] else ""
  }

  /** `rowMatchesContainer`, applied to the rows the batch query returned. */
  predicate RowMatches(x: Section, c: Container, s: Subject, r: Row) {
    && (x.tenantColumn.Some? ==> TenantOf(c, s) != "" && Shown(r, x.tenantColumn.value) == TenantOf(c, s))
    && (x.userColumn.Some? ==> s.user != "" && Shown(r, x.userColumn.value) == s.user)
    && (x.workspaceColumn.Some? ==> c.workspace != "" && Shown(r, x.workspaceColumn.value) == c.workspace)
    && (x.brandColumn.Some? ==> c.brand != "" && Shown(r, x.brandColumn.value) == c.brand)
    && (x.systemColumn.Some? ==> c.systems != [] && Shown(r, x.systemColumn.value) in c.systems)
  }

  // ---------------------------------------------------------------- limits and columns

  function RowLimit(x: Section): (n: nat)
    ensures 1 <= n <= 100
    ensures 1 <= x.configuredLimit <= 100 ==> n == x.configuredLimit
    ensures x.configuredLimit > 100 ==> n == 100
    ensures x.configuredLimit < 0 ==> n == 1
    ensures x.configuredLimit == 0 ==> n == 25
  {
    var n := if x.configuredLimit == 0 then 25 else x.configuredLimit;
    if n < 1 then 1 else if n > 100 then 100 else n
  }

  function BatchLimit(x: Section, count: nat): (n: nat)
    ensures RowLimit(x) <= n <= 5000
    ensures count <= 1 ==> n == RowLimit(x)
    ensures count > 1 && RowLimit(x) * count <= 5000 ==> n == RowLimit(x) * count
    ensures count > 1 && RowLimit(x) * count > 5000 ==> n == 5000
  {
    var scaled := if count > 1 then RowLimit(x) * count else RowLimit(x);
    var n := if scaled < RowLimit(x) then RowLimit(x) else scaled;
    if n > 5000 then 5000 else n
  }

  function Select(r: Row, columns: set<string>): Row {
    map k | k in r && k in columns :: r[k]
  }

  function Strip(r: Row, blocked: string -> bool): Row {
    map k | k in r && !blocked(k) :: r[k]
  }

  function ColumnSet(x: Section): set<string> {
    set k | k in x.columns
  }

  function OptionSet(o: Option<string>): set<string> {
    if o.Some? then {o.value} else {}
  }

  function ScopeColumns(x: Section): set<string> {
    OptionSet(x.tenantColumn) + OptionSet(x.userColumn) + OptionSet(x.workspaceColumn) + OptionSet(x.brandColumn) +
    OptionSet(x.systemColumn)
  }

  function Map(s: seq<Row>, f: Row -> Row): (r: seq<Row>)
    ensures |r| == |s| && forall i :: 0 <= i < |s| ==> r[i] == f(s[i])
  {
    if s == [] then [] else [f(s[0])] + Map(s[1..], f)
  }

  // ---------------------------------------------------------------- the two loaders

  /** What the per-container loader returns for `c`; a section with no safe column has no rows. */
  function ContainerRows(table: seq<Row>, x: Section, c: Container, s: Subject, blocked: string -> bool): seq<Row> {
    if x.columns == [] then [] else
    var found := Take(Filter(table, r => ContainerWhere(x, c, s, r)), RowLimit(x));
    Map(found, r => Strip(Select(r, ColumnSet(x)), blocked))
  }

  /** The rows of the one batch query, with the scope columns it also selects. */
  function BatchQuery(table: seq<Row>, x: Section, cs: seq<Container>, s: Subject): seq<Row> {
    Map(Take(Filter(table, r => BatchWhere(x, cs, s, r)), BatchLimit(x, |cs|)),
        r => Select(r, ColumnSet(x) + ScopeColumns(x)))
  }

  /** What the batched loader hands to `c`: matching rows, at most the row limit, scope columns removed. */
  function BatchRows(rows: seq<Row>, x: Section, c: Container, s: Subject, blocked: string -> bool): seq<Row> {
    if x.columns == [] then [] else
    var matched := Take(Filter(rows, r => RowMatches(x, c, s, r)), RowLimit(x));
    Map(matched, r => Strip(r, blocked) - (ScopeColumns(x) - ColumnSet(x)))
  }

  predicate LastOfKey(cs: seq<Container>, i: nat)
    requires i < |cs|
  {
    forall j :: i < j < |cs| ==> cs[j].key != cs[i].key
  }

  /** Each container key answers with the rows of the last container that carries it. */
  ghost predicate Answers(byContainer: map<string, seq<Row>>, rows: seq<Row>, x: Section, cs: seq<Container>,
                          s: Subject, blocked: string -> bool) {
    && (forall k :: k in byContainer <==> exists i :: 0 <= i < |cs| && cs[i].key == k)
    && (forall i :: 0 <= i < |cs| && LastOfKey(cs, i) ==>
          byContainer[cs[i].key] == BatchRows(rows, x, cs[i], s, blocked))
  }

  lemma LastOfKeyBefore(cs: seq<Container>, c: Container, i: nat)
    requires i < |cs| && LastOfKey(cs + [c], i)
    ensures LastOfKey(cs, i) && c.key != cs[i].key
  {
    var more := cs + [c];
    assert more[|cs|] == c && more[i] == cs[i];
    assert forall j :: i < j < |cs| ==> more[j] == cs[j];
  }

  lemma KeysOneMore(keys: set<string>, cs: seq<Container>, c: Container)
    requires forall k :: k in keys <==> exists i :: 0 <= i < |cs| && cs[i].key == k
    ensures forall k :: k in keys + {c.key} <==> exists i :: 0 <= i < |cs + [c]| && (cs + [c])[i].key == k
  {
    var more := cs + [c];
    assert more[|cs|] == c;
    assert forall i :: 0 <= i < |cs| ==> more[i] == cs[i];
    forall k ensures k in keys + {c.key} <==> exists i :: 0 <= i < |more| && more[i].key == k {
      if i :| 0 <= i < |cs| && cs[i].key == k {
        assert more[i].key == k;
      }
    }
  }

  lemma AnswersOneMore(byContainer: map<string, seq<Row>>, rows: seq<Row>, x: Section, cs: seq<Container>, c: Container,
                       s: Subject, blocked: string -> bool)
    requires Answers(byContainer, rows, x, cs, s, blocked)
    ensures Answers(byContainer[c.key := BatchRows(rows, x, c, s, blocked)], rows, x, cs + [c], s, blocked)
  {
    var more := cs + [c];
    var after := byContainer[c.key := BatchRows(rows, x, c, s, blocked)];
    KeysOneMore(byContainer.Keys, cs, c);
    assert after.Keys == byContainer.Keys + {c.key};
    forall i | 0 <= i < |more| && LastOfKey(more, i)
      ensures more[i].key in after && after[more[i].key] == BatchRows(rows, x, more[i], s, blocked)
    {
      if i < |cs| {
        LastOfKeyBefore(cs, c, i);
      }
    }
  }

  /** The map after the containers have been answered in order, a later one overwriting an earlier one of its key. */
  function HandedOut(rows: seq<Row>, x: Section, cs: seq<Container>, s: Subject, blocked: string -> bool):
    map<string, seq<Row>>
  {
    if cs == [] then map[]
    else
      var last := cs[|cs| - 1];
      HandedOut(rows, x, cs[..|cs| - 1], s, blocked)[last.key := BatchRows(rows, x, last, s, blocked)]
  }

  lemma {:induction false} HandedOutAnswers(rows: seq<Row>, x: Section, cs: seq<Container>, s: Subject,
                                            blocked: string -> bool)
    ensures Answers(HandedOut(rows, x, cs, s, blocked), rows, x, cs, s, blocked)
  {
    if cs != [] {
      var front, last := cs[..|cs| - 1], cs[|cs| - 1];
      assert cs == front + [last];
      var before := HandedOut(rows, x, front, s, blocked);
      assert HandedOut(rows, x, cs, s, blocked) == before[last.key := BatchRows(rows, x, last, s, blocked)];
      HandedOutAnswers(rows, x, front, s, blocked);
      AnswersOneMore(before, rows, x, front, last, s, blocked);
    }
  }

  // ---------------------------------------------------------------- agreement of the tests

  /** Every scope column the section uses has a value to compare with. */
  predicate Bound(x: Section, c: Container, s: Subject) {
    && (x.tenantColumn.Some? ==> TenantOf(c, s) != "")
    && (x.userColumn.Some? ==> s.user != "")
    && (x.workspaceColumn.Some? ==> c.workspace != "")
    && (x.brandColumn.Some? ==> c.brand != "")
    && (x.systemColumn.Some? ==> c.systems != [])
  }

  lemma BoundTestsAgree(x: Section, c: Container, s: Subject, r: Row)
    requires ValidContainer(c) && Bound(x, c, s)
    ensures ContainerWhere(x, c, s, r) <==> RowMatches(x, c, s, r) && StatusAllows(x, r)
  {
  }

  lemma {:induction false} SystemsListed(cs: seq<Container>, i: nat, v: string)
    requires i < |cs| && v in cs[i].systems && v != ""
    ensures v in Systems(cs)
  {
    if i > 0 {
      SystemsListed(cs[1..], i - 1, v);
    }
  }

  lemma ScopeValuesListed(x: Section, cs: seq<Container>, s: Subject, i: nat)
    requires i < |cs| && Bound(x, cs[i], s)
    ensures x.tenantColumn.Some? ==> TenantOf(cs[i], s) in Tenants(cs, s)
    ensures x.workspaceColumn.Some? ==> cs[i].workspace in Workspaces(cs)
    ensures x.brandColumn.Some? ==> cs[i].brand in Brands(cs)
  {
    assert TenantOf(cs[i], s) == seq(|cs|, k requires 0 <= k < |cs| => TenantOf(cs[k], s))[i];
    assert cs[i].workspace == seq(|cs|, k requires 0 <= k < |cs| => cs[k].workspace)[i];
    assert cs[i].brand == seq(|cs|, k requires 0 <= k < |cs| => cs[k].brand)[i];
  }

  /** A row that some container wants is a row the batch query asks for. */
  lemma BatchAsksForMatches(x: Section, cs: seq<Container>, s: Subject, i: nat, r: Row)
    requires i < |cs| && ValidContainer(cs[i]) && Bound(x, cs[i], s)
    requires RowMatches(x, cs[i], s, r) && StatusAllows(x, r)
    ensures BatchWhere(x, cs, s, r)
  {
    ScopeValuesListed(x, cs, s, i);
    if x.systemColumn.Some? {
      SystemsListed(cs, i, Shown(r, x.systemColumn.value));
    }
  }

  lemma SelectionKeepsScope(x: Section, c: Container, s: Subject, r: Row)
    ensures RowMatches(x, c, s, Select(r, ColumnSet(x) + ScopeColumns(x))) <==> RowMatches(x, c, s, r)
  {
  }

  /** Both loaders show a row the same way. */
  lemma SameProjection(x: Section, r: Row, blocked: string -> bool)
    ensures Strip(Select(r, ColumnSet(x) + ScopeColumns(x)), blocked) - (ScopeColumns(x) - ColumnSet(x)) ==
            Strip(Select(r, ColumnSet(x)), blocked)
  {
  }

  // ---------------------------------------------------------------- sequences

  lemma {:induction false} FilterTake(s: seq<Row>, n: nat, p: Row -> bool)
    ensures Filter(Take(s, n), p) <= Filter(s, p)
    ensures n >= |s| ==> Filter(Take(s, n), p) == Filter(s, p)
    decreases |s|
  {
    if s != [] && n > 0 {
      FilterTake(s[1..], n - 1, p);
      assert Take(s, n)[1..] == Take(s[1..], n - 1);
    }
  }

  lemma {:induction false} FilterMap(s: seq<Row>, f: Row -> Row, p: Row -> bool, q: Row -> bool)
    requires forall r :: r in s ==> p(f(r)) == q(r)
    ensures Filter(Map(s, f), p) == Map(Filter(s, q), f)
  {
    if s != [] {
      FilterMap(s[1..], f, p, q);
      assert Map(s, f)[1..] == Map(s[1..], f);
    }
  }

  lemma {:induction false} FilterTwice(s: seq<Row>, p: Row -> bool, q: Row -> bool, both: Row -> bool)
    requires forall r :: r in s ==> (both(r) <==> p(r) && q(r))
    ensures Filter(Filter(s, p), q) == Filter(s, both)
  {
    if s != [] {
      FilterTwice(s[1..], p, q, both);
      if p(s[0]) {
        assert Filter(s, p)[1..] == Filter(s[1..], p);
      }
    }
  }

  lemma TakePrefix(a: seq<Row>, b: seq<Row>, n: nat)
    requires a <= b
    ensures Take(a, n) <= Take(b, n)
  {
  }

  lemma MapPrefix(a: seq<Row>, b: seq<Row>, f: Row -> Row)
    requires a <= b
    ensures Map(a, f) <= Map(b, f)
  {
  }

  lemma TakeMap(s: seq<Row>, f: Row -> Row, n: nat)
    ensures Take(Map(s, f), n) == Map(Take(s, n), f)
  {
  }

  // ---------------------------------------------------------------- the loaders agree

  /** Table rows the batch hands to `c`, before any column is dropped. */
  lemma BatchRowsOfTable(table: seq<Row>, x: Section, cs: seq<Container>, c: Container, s: Subject,
                         blocked: string -> bool)
    requires x.columns != []
    ensures var cut := Take(Filter(table, r => BatchWhere(x, cs, s, r)), BatchLimit(x, |cs|));
            BatchRows(BatchQuery(table, x, cs, s), x, c, s, blocked) ==
            Map(Take(Filter(cut, r => RowMatches(x, c, s, r)), RowLimit(x)),
                r => Strip(Select(r, ColumnSet(x)), blocked))
  {
    var cut := Take(Filter(table, r => BatchWhere(x, cs, s, r)), BatchLimit(x, |cs|));
    var select: Row -> Row := r => Select(r, ColumnSet(x) + ScopeColumns(x));
    var matches: Row -> bool := r => RowMatches(x, c, s, r);
    forall r ensures matches(select(r)) == matches(r) {
      SelectionKeepsScope(x, c, s, r);
    }
    FilterMap(cut, select, matches, matches);
    TakeMap(Filter(cut, matches), select, RowLimit(x));
    var kept := Take(Filter(cut, matches), RowLimit(x));
    var left := BatchRows(BatchQuery(table, x, cs, s), x, c, s, blocked);
    forall i | 0 <= i < |kept| ensures left[i] == Strip(Select(kept[i], ColumnSet(x)), blocked) {
      SameProjection(x, kept[i], blocked);
    }
  }

  /** A container missing a scope value the section uses gets nothing from the batch. */
  lemma UnboundGetsNothing(rows: seq<Row>, x: Section, c: Container, s: Subject, blocked: string -> bool)
    requires !Bound(x, c, s)
    ensures BatchRows(rows, x, c, s, blocked) == []
  {
    FilterNone(rows, r => RowMatches(x, c, s, r));
  }

  lemma BoundBatchAgrees(table: seq<Row>, x: Section, cs: seq<Container>, i: nat, s: Subject)
    requires i < |cs| && ValidContainer(cs[i]) && Bound(x, cs[i], s)
    ensures var asked := Filter(table, r => BatchWhere(x, cs, s, r));
            var matched := Filter(Take(asked, BatchLimit(x, |cs|)), r => RowMatches(x, cs[i], s, r));
            var wanted := Filter(table, r => ContainerWhere(x, cs[i], s, r));
            matched <= wanted && (|asked| <= BatchLimit(x, |cs|) ==> matched == wanted)
  {
    var ask: Row -> bool := r => BatchWhere(x, cs, s, r);
    var matches: Row -> bool := r => RowMatches(x, cs[i], s, r);
    var want: Row -> bool := r => ContainerWhere(x, cs[i], s, r);
    forall r | r in table ensures want(r) <==> ask(r) && matches(r) {
      BoundTestsAgree(x, cs[i], s, r);
      if want(r) {
        BatchAsksForMatches(x, cs, s, i, r);
      }
    }
    FilterTwice(table, ask, matches, want);
    FilterTake(Filter(table, ask), BatchLimit(x, |cs|), matches);
  }

  /** The batch query's limit did not cut anything off. */
  predicate Uncut(table: seq<Row>, x: Section, cs: seq<Container>, s: Subject) {
    |Filter(table, r => BatchWhere(x, cs, s, r))| <= BatchLimit(x, |cs|)
  }

  lemma BoundAgrees(table: seq<Row>, x: Section, cs: seq<Container>, i: nat, s: Subject, blocked: string -> bool)
    requires i < |cs| && ValidContainer(cs[i]) && Bound(x, cs[i], s) && x.columns != []
    ensures BatchRows(BatchQuery(table, x, cs, s), x, cs[i], s, blocked) <= ContainerRows(table, x, cs[i], s, blocked)
    ensures Uncut(table, x, cs, s) ==> BatchRows(BatchQuery(table, x, cs, s), x, cs[i], s, blocked) ==
                                       ContainerRows(table, x, cs[i], s, blocked)
  {
    BatchRowsOfTable(table, x, cs, cs[i], s, blocked);
    BoundBatchAgrees(table, x, cs, i, s);
    var asked := Filter(table, r => BatchWhere(x, cs, s, r));
    var matched := Filter(Take(asked, BatchLimit(x, |cs|)), r => RowMatches(x, cs[i], s, r));
    var wanted := Filter(table, r => ContainerWhere(x, cs[i], s, r));
    TakePrefix(matched, wanted, RowLimit(x));
    MapPrefix(Take(matched, RowLimit(x)), Take(wanted, RowLimit(x)), r => Strip(Select(r, ColumnSet(x)), blocked));
  }

  /**
   * For every subject and every container of the batch, the batched rows are a prefix of the per-container rows;
   * and when the container binds every scope column and the batch query was not cut off, they are the same rows.
   */
  lemma BatchAgreesWithContainer(table: seq<Row>, x: Section, cs: seq<Container>, i: nat, s: Subject,
                                 blocked: string -> bool)
    requires i < |cs| && ValidContainer(cs[i])
    ensures BatchRows(BatchQuery(table, x, cs, s), x, cs[i], s, blocked) <= ContainerRows(table, x, cs[i], s, blocked)
    ensures Bound(x, cs[i], s) && Uncut(table, x, cs, s) ==>
              BatchRows(BatchQuery(table, x, cs, s), x, cs[i], s, blocked) ==
              ContainerRows(table, x, cs[i], s, blocked)
  {
    if Bound(x, cs[i], s) && x.columns != [] {
      BoundAgrees(table, x, cs, i, s, blocked);
    } else if x.columns != [] {
      UnboundGetsNothing(BatchQuery(table, x, cs, s), x, cs[i], s, blocked);
    }
  }

  ghost predicate AgreeOnUncutTables(x: Section, cs: seq<Container>, i: nat, s: Subject, blocked: string -> bool)
    requires i < |cs|
  {
    forall table :: Uncut(table, x, cs, s) ==>
      BatchRows(BatchQuery(table, x, cs, s), x, cs[i], s, blocked) == ContainerRows(table, x, cs[i], s, blocked)
  }

  // ---------------------------------------------------------------- when the per-container filter admits nothing

  /** The filter has a term that no row meets: a subject who is no administrator lacks a tenant, user or brand. */
  predicate Denied(x: Section, c: Container, s: Subject) {
    && !s.isAdmin
    && (|| (x.tenantColumn.Some? && TenantOf(c, s) == "")
        || (x.userColumn.Some? && s.user == "")
        || (x.brandColumn.Some? && c.brand == ""))
  }

  /** A column and the values the filter allows in it. */
  datatype Demand = Demand(column: string, values: seq<string>)

  function DemandIf(column: Option<string>, values: seq<string>): seq<Demand> {
    if column.Some? && values != [] then [Demand(column.value, values)] else []
  }

  function Single(value: string): seq<string> {
    if value == "" then [] else [value]
  }

  /** What the per-container filter asks of a row. */
  function Demands(x: Section, c: Container, s: Subject): seq<Demand> {
    DemandIf(x.tenantColumn, Single(TenantOf(c, s))) + DemandIf(x.userColumn, Single(s.user)) +
    DemandIf(x.workspaceColumn, Single(c.workspace)) + DemandIf(x.brandColumn, Single(c.brand)) +
    DemandIf(x.systemColumn, c.systems) + DemandIf(x.statusColumn, x.activeStatuses)
  }

  predicate Meets(r: Row, d: Demand) {
    CellIn(r, d.column, d.values)
  }

  predicate MeetsAll(r: Row, ds: seq<Demand>) {
    forall i :: 0 <= i < |ds| ==> Meets(r, ds[i])
  }

  lemma MeetsBoth(r: Row, a: seq<Demand>, b: seq<Demand>)
    ensures MeetsAll(r, a + b) <==> MeetsAll(r, a) && MeetsAll(r, b)
  {
    assert forall i :: 0 <= i < |a| ==> (a + b)[i] == a[i];
    assert forall i :: 0 <= i < |b| ==> (a + b)[|a| + i] == b[i];
  }

  lemma MeetsIf(r: Row, column: Option<string>, values: seq<string>)
    ensures MeetsAll(r, DemandIf(column, values)) <==>
            (column.Some? && values != [] ==> CellIn(r, column.value, values))
  {
    if column.Some? && values != [] {
      assert DemandIf(column, values)[0] == Demand(column.value, values);
    }
  }

  /** The filter is its demands, unless it is denied outright. */
  lemma FilterIsDemands(x: Section, c: Container, s: Subject, r: Row)
    ensures ContainerWhere(x, c, s, r) <==> !Denied(x, c, s) && MeetsAll(r, Demands(x, c, s))
  {
    var t, u := DemandIf(x.tenantColumn, Single(TenantOf(c, s))), DemandIf(x.userColumn, Single(s.user));
    var w, b := DemandIf(x.workspaceColumn, Single(c.workspace)), DemandIf(x.brandColumn, Single(c.brand));
    var y, z := DemandIf(x.systemColumn, c.systems), DemandIf(x.statusColumn, x.activeStatuses);
    MeetsBoth(r, t, u);
    MeetsBoth(r, t + u, w);
    MeetsBoth(r, t + u + w, b);
    MeetsBoth(r, t + u + w + b, y);
    MeetsBoth(r, t + u + w + b + y, z);
    MeetsIf(r, x.tenantColumn, Single(TenantOf(c, s)));
    MeetsIf(r, x.userColumn, Single(s.user));
    MeetsIf(r, x.workspaceColumn, Single(c.workspace));
    MeetsIf(r, x.brandColumn, Single(c.brand));
    MeetsIf(r, x.systemColumn, c.systems);
    MeetsIf(r, x.statusColumn, x.activeStatuses);
  }

  /** A value every demand on the column allows. */
  predicate Common(ds: seq<Demand>, column: string, value: string) {
    forall i :: 0 <= i < |ds| && ds[i].column == column ==> value in ds[i].values
  }

  /** No value of demand `i` suits the other demands on its column. */
  predicate Stuck(ds: seq<Demand>, i: nat)
    requires i < |ds|
  {
    forall v :: v in ds[i].values ==> !Common(ds, ds[i].column, v)
  }

  /** Two scopes share a column and ask for values that never agree. */
  predicate Clashes(ds: seq<Demand>) {
    exists i :: 0 <= i < |ds| && Stuck(ds, i)
  }

  function Columns(ds: seq<Demand>): set<string> {
    set d | d in ds :: d.column
  }

  ghost function Witness(ds: seq<Demand>): Row
    requires !Clashes(ds)
  {
    map k | k in Columns(ds) :: CommonValue(ds, k)
  }

  ghost function CommonValue(ds: seq<Demand>, column: string): (value: string)
    requires !Clashes(ds) && column in Columns(ds)
    ensures Common(ds, column, value)
  {
    var i :| 0 <= i < |ds| && ds[i].column == column;
    assert !Stuck(ds, i);
    var v :| v in ds[i].values && Common(ds, column, v);
    v
  }

  lemma MetNeverClash(ds: seq<Demand>, r: Row)
    requires MeetsAll(r, ds)
    ensures !Clashes(ds)
  {
    forall i | 0 <= i < |ds| ensures !Stuck(ds, i) {
      assert Meets(r, ds[i]);
      assert Common(ds, ds[i].column, r[ds[i].column]) by {
        forall j | 0 <= j < |ds| && ds[j].column == ds[i].column ensures r[ds[i].column] in ds[j].values {
          assert Meets(r, ds[j]);
        }
      }
    }
  }

  lemma WitnessMeetsAll(ds: seq<Demand>)
    requires !Clashes(ds)
    ensures MeetsAll(Witness(ds), ds)
  {
    forall i | 0 <= i < |ds| ensures Meets(Witness(ds), ds[i]) {
      assert ds[i] in ds;
      assert ds[i].column in Columns(ds);
    }
  }

  lemma DemandsCanBeMet(ds: seq<Demand>)
    ensures (exists r :: MeetsAll(r, ds)) <==> !Clashes(ds)
  {
    if Clashes(ds) {
      forall r ensures !MeetsAll(r, ds) {
        if MeetsAll(r, ds) {
          MetNeverClash(ds, r);
        }
      }
    } else {
      WitnessMeetsAll(ds);
    }
  }

  /** Nothing passes the per-container filter exactly when it is denied or its demands clash. */
  lemma NothingPasses(x: Section, c: Container, s: Subject)
    ensures (forall r :: !ContainerWhere(x, c, s, r)) <==> Denied(x, c, s) || Clashes(Demands(x, c, s))
  {
    forall r ensures ContainerWhere(x, c, s, r) <==> !Denied(x, c, s) && MeetsAll(r, Demands(x, c, s)) {
      FilterIsDemands(x, c, s, r);
    }
    DemandsCanBeMet(Demands(x, c, s));
    if !Denied(x, c, s) && !Clashes(Demands(x, c, s)) {
      var r :| MeetsAll(r, Demands(x, c, s));
      assert ContainerWhere(x, c, s, r);
    }
  }

  /** Scopes in columns of their own never clash. */
  lemma DistinctColumnsNeverClash(ds: seq<Demand>)
    requires Apart(ds)
    ensures !Clashes(ds)
  {
    forall i | 0 <= i < |ds| ensures !Stuck(ds, i) {
      assert Common(ds, ds[i].column, ds[i].values[0]);
    }
  }

  // ---------------------------------------------------------------- exactly when the loaders agree

  lemma OpenUnboundDiffers(x: Section, cs: seq<Container>, i: nat, s: Subject, blocked: string -> bool, r: Row)
    requires i < |cs| && x.columns != [] && !Bound(x, cs[i], s) && ContainerWhere(x, cs[i], s, r)
    ensures Uncut([r], x, cs, s)
    ensures |ContainerRows([r], x, cs[i], s, blocked)| == 1
    ensures BatchRows(BatchQuery([r], x, cs, s), x, cs[i], s, blocked) == []
  {
    UnboundGetsNothing(BatchQuery([r], x, cs, s), x, cs[i], s, blocked);
    assert Filter([r][1..], r => ContainerWhere(x, cs[i], s, r)) == [];
  }

  lemma ClosedAgrees(table: seq<Row>, x: Section, cs: seq<Container>, i: nat, s: Subject, blocked: string -> bool)
    requires i < |cs| && ValidContainer(cs[i]) && forall r :: !ContainerWhere(x, cs[i], s, r)
    ensures BatchRows(BatchQuery(table, x, cs, s), x, cs[i], s, blocked) == ContainerRows(table, x, cs[i], s, blocked)
  {
    BatchAgreesWithContainer(table, x, cs, i, s, blocked);
    FilterNone(table, r => ContainerWhere(x, cs[i], s, r));
  }

  /**
   * The loaders agree on every table that the batch limit does not cut off exactly when every used scope is bound, or
   * the subject lacks a tenant, user or brand the section needs, or two scopes clash in one column.
   */
  lemma AgreementIsBinding(x: Section, cs: seq<Container>, i: nat, s: Subject, blocked: string -> bool)
    requires i < |cs| && ValidContainer(cs[i]) && x.columns != []
    ensures AgreeOnUncutTables(x, cs, i, s, blocked) <==>
            Bound(x, cs[i], s) || Denied(x, cs[i], s) || Clashes(Demands(x, cs[i], s))
  {
    NothingPasses(x, cs[i], s);
    if Bound(x, cs[i], s) {
      forall table | Uncut(table, x, cs, s)
        ensures BatchRows(BatchQuery(table, x, cs, s), x, cs[i], s, blocked) ==
                ContainerRows(table, x, cs[i], s, blocked)
      {
        BatchAgreesWithContainer(table, x, cs, i, s, blocked);
      }
    } else if r :| ContainerWhere(x, cs[i], s, r) {
      OpenUnboundDiffers(x, cs, i, s, blocked, r);
    } else {
      forall table
        ensures BatchRows(BatchQuery(table, x, cs, s), x, cs[i], s, blocked) ==
                ContainerRows(table, x, cs[i], s, blocked)
      {
        ClosedAgrees(table, x, cs, i, s, blocked);
      }
    }
  }

  predicate Differ(a: Option<string>, b: Option<string>) {
    a.None? || a != b
  }

  /** No two scopes of the section share a column. */
  predicate OwnColumns(x: Section) {
    && Differ(x.tenantColumn, x.userColumn) && Differ(x.tenantColumn, x.workspaceColumn)
    && Differ(x.tenantColumn, x.brandColumn) && Differ(x.tenantColumn, x.systemColumn)
    && Differ(x.tenantColumn, x.statusColumn) && Differ(x.userColumn, x.workspaceColumn)
    && Differ(x.userColumn, x.brandColumn) && Differ(x.userColumn, x.systemColumn)
    && Differ(x.userColumn, x.statusColumn) && Differ(x.workspaceColumn, x.brandColumn)
    && Differ(x.workspaceColumn, x.systemColumn) && Differ(x.workspaceColumn, x.statusColumn)
    && Differ(x.brandColumn, x.systemColumn) && Differ(x.brandColumn, x.statusColumn)
    && Differ(x.systemColumn, x.statusColumn)
  }

  ghost predicate Apart(ds: seq<Demand>) {
    && (forall i :: 0 <= i < |ds| ==> ds[i].values != [])
    && (forall i, j :: 0 <= i < j < |ds| ==> ds[i].column != ds[j].column)
  }

  lemma ApartMore(ds: seq<Demand>, used: set<string>, column: Option<string>, values: seq<string>)
    requires Apart(ds) && Columns(ds) <= used && (column.Some? ==> column.value !in used)
    ensures Apart(ds + DemandIf(column, values))
    ensures Columns(ds + DemandIf(column, values)) <= used + OptionSet(column)
  {
    assert forall i :: 0 <= i < |ds| ==> ds[i] in ds && ds[i].column in Columns(ds);
  }

  lemma ThreeApart(ds: seq<Demand>, used: set<string>, a: Option<string>, va: seq<string>, b: Option<string>,
                   vb: seq<string>, c: Option<string>, vc: seq<string>)
    requires Apart(ds) && Columns(ds) <= used && Differ(a, b) && Differ(a, c) && Differ(b, c)
    requires OptionSet(a) !! used && OptionSet(b) !! used && OptionSet(c) !! used
    ensures Apart(ds + DemandIf(a, va) + DemandIf(b, vb) + DemandIf(c, vc))
    ensures Columns(ds + DemandIf(a, va) + DemandIf(b, vb) + DemandIf(c, vc)) <=
            used + OptionSet(a) + OptionSet(b) + OptionSet(c)
  {
    ApartMore(ds, used, a, va);
    ApartMore(ds + DemandIf(a, va), used + OptionSet(a), b, vb);
    ApartMore(ds + DemandIf(a, va) + DemandIf(b, vb), used + OptionSet(a) + OptionSet(b), c, vc);
  }

  /** In columns of their own the scopes never clash, so only missing bindings and a denial decide. */
  lemma OwnColumnsNeverClash(x: Section, c: Container, s: Subject)
    requires OwnColumns(x)
    ensures !Clashes(Demands(x, c, s))
  {
    var used := OptionSet(x.tenantColumn) + OptionSet(x.userColumn) + OptionSet(x.workspaceColumn);
    var first := DemandIf(x.tenantColumn, Single(TenantOf(c, s))) + DemandIf(x.userColumn, Single(s.user)) +
                 DemandIf(x.workspaceColumn, Single(c.workspace));
    ThreeApart([], {}, x.tenantColumn, Single(TenantOf(c, s)), x.userColumn, Single(s.user), x.workspaceColumn,
               Single(c.workspace));
    assert [] + DemandIf(x.tenantColumn, Single(TenantOf(c, s))) == DemandIf(x.tenantColumn, Single(TenantOf(c, s)));
    ThreeApart(first, used, x.brandColumn, Single(c.brand), x.systemColumn, c.systems, x.statusColumn,
               x.activeStatuses);
    DistinctColumnsNeverClash(Demands(x, c, s));
  }

  // ---------------------------------------------------------------- whose rows are shown

  /**
   * The row is the container's: of its tenant, or of the subject's when it names none, and of the subject's user; only
   * an administrator may do without a tenant, user or brand. Linked systems and active statuses narrow it further.
   */
  predicate Belongs(x: Section, c: Container, s: Subject, r: Row) {
    && (x.tenantColumn.Some? && c.tenant != "" ==> CellIs(r, x.tenantColumn.value, c.tenant))
    && (x.tenantColumn.Some? && c.tenant == "" && s.tenant != "" ==> CellIs(r, x.tenantColumn.value, s.tenant))
    && (x.tenantColumn.Some? && c.tenant == "" && s.tenant == "" ==> s.isAdmin)
    && (x.userColumn.Some? && s.user != "" ==> CellIs(r, x.userColumn.value, s.user))
    && (x.userColumn.Some? && s.user == "" ==> s.isAdmin)
    && (x.workspaceColumn.Some? && c.workspace != "" ==> CellIs(r, x.workspaceColumn.value, c.workspace))
    && (x.brandColumn.Some? && c.brand != "" ==> CellIs(r, x.brandColumn.value, c.brand))
    && (x.brandColumn.Some? && c.brand == "" ==> s.isAdmin)
    && (x.systemColumn.Some? && c.systems != [] ==> CellIn(r, x.systemColumn.value, c.systems))
    && (x.statusColumn.Some? && x.activeStatuses != [] ==> CellIn(r, x.statusColumn.value, x.activeStatuses))
  }

  /** `out` shows the safe columns of `r` that are not sensitive, unchanged, and nothing else. */
  ghost predicate Shows(out: Row, r: Row, x: Section, blocked: string -> bool) {
    forall k :: (k in out <==> k in r && k in x.columns && !blocked(k)) && (k in out ==> out[k] == r[k])
  }

  /** Some container has the cell's value as its own (or the subject's) tenant; with no tenant at all, an admin. */
  ghost predicate TenantAsked(column: string, cs: seq<Container>, s: Subject, r: Row) {
    if forall i :: 0 <= i < |cs| ==> cs[i].tenant == "" && s.tenant == "" then s.isAdmin
    else exists i :: 0 <= i < |cs| && TenantOf(cs[i], s) != "" && CellIs(r, column, TenantOf(cs[i], s))
  }

  ghost predicate WorkspaceAsked(column: string, cs: seq<Container>, r: Row) {
    exists i :: 0 <= i < |cs| && cs[i].workspace != "" && CellIs(r, column, cs[i].workspace)
  }

  ghost predicate BrandAsked(column: string, cs: seq<Container>, r: Row) {
    exists i :: 0 <= i < |cs| && cs[i].brand != "" && CellIs(r, column, cs[i].brand)
  }

  ghost predicate SystemAsked(column: string, cs: seq<Container>, r: Row) {
    exists i :: 0 <= i < |cs| && CellIn(r, column, cs[i].systems) && r[column] != ""
  }

  /** The batch query asks exactly for rows whose every scope cell is that of some container, or the subject's user. */
  ghost predicate Asked(x: Section, cs: seq<Container>, s: Subject, r: Row) {
    && (x.tenantColumn.Some? ==> TenantAsked(x.tenantColumn.value, cs, s, r))
    && (x.userColumn.Some? ==> s.user != "" && CellIs(r, x.userColumn.value, s.user))
    && (x.workspaceColumn.Some? ==> WorkspaceAsked(x.workspaceColumn.value, cs, r))
    && (x.brandColumn.Some? ==> BrandAsked(x.brandColumn.value, cs, r))
    && (x.systemColumn.Some? ==> SystemAsked(x.systemColumn.value, cs, r))
    && (x.statusColumn.Some? && x.activeStatuses != [] ==> CellIn(r, x.statusColumn.value, x.activeStatuses))
  }

  lemma {:induction false} SystemsAreListed(cs: seq<Container>, v: string)
    ensures v in Systems(cs) <==> v != "" && exists i :: 0 <= i < |cs| && v in cs[i].systems
  {
    if cs != [] {
      SystemsAreListed(cs[1..], v);
      if i :| 0 <= i < |cs| && v in cs[i].systems {
        assert i > 0 ==> v in cs[1..][i - 1].systems;
      }
      if i :| 0 <= i < |cs[1..]| && v in cs[1..][i].systems {
        assert v in cs[i + 1].systems;
      }
    }
  }

  lemma TenantsAre(cs: seq<Container>, s: Subject, v: string)
    ensures v in Tenants(cs, s) <==> v != "" && exists i :: 0 <= i < |cs| && TenantOf(cs[i], s) == v
    ensures Tenants(cs, s) == [] <==> forall i :: 0 <= i < |cs| ==> cs[i].tenant == "" && s.tenant == ""
  {
    var all := seq(|cs|, i requires 0 <= i < |cs| => TenantOf(cs[i], s));
    assert forall i :: 0 <= i < |cs| ==> all[i] == TenantOf(cs[i], s);
    if Tenants(cs, s) == [] {
      forall i | 0 <= i < |cs| ensures cs[i].tenant == "" && s.tenant == "" {
        assert all[i] !in Tenants(cs, s);
      }
    } else {
      assert Tenants(cs, s)[0] in Tenants(cs, s);
    }
  }

  lemma WorkspacesAndBrandsAre(cs: seq<Container>, v: string)
    ensures v in Workspaces(cs) <==> v != "" && exists i :: 0 <= i < |cs| && cs[i].workspace == v
    ensures v in Brands(cs) <==> v != "" && exists i :: 0 <= i < |cs| && cs[i].brand == v
  {
    var workspaces := seq(|cs|, i requires 0 <= i < |cs| => cs[i].workspace);
    var brands := seq(|cs|, i requires 0 <= i < |cs| => cs[i].brand);
    assert forall i :: 0 <= i < |cs| ==> workspaces[i] == cs[i].workspace && brands[i] == cs[i].brand;
  }

  lemma TenantIsAsked(column: string, cs: seq<Container>, s: Subject, r: Row)
    ensures TenantAsked(column, cs, s, r) <==>
            if Tenants(cs, s) != [] then CellIn(r, column, Tenants(cs, s)) else s.isAdmin
  {
    TenantsAre(cs, s, Shown(r, column));
  }

  lemma OthersAreAsked(column: string, cs: seq<Container>, r: Row)
    ensures WorkspaceAsked(column, cs, r) <==> CellIn(r, column, Workspaces(cs))
    ensures BrandAsked(column, cs, r) <==> CellIn(r, column, Brands(cs))
    ensures SystemAsked(column, cs, r) <==> CellIn(r, column, Systems(cs))
  {
    WorkspacesAndBrandsAre(cs, Shown(r, column));
    SystemsAreListed(cs, Shown(r, column));
  }

  lemma BatchAsksExactly(x: Section, cs: seq<Container>, s: Subject, r: Row)
    ensures BatchWhere(x, cs, s, r) <==> Asked(x, cs, s, r)
  {
    if x.tenantColumn.Some? {
      TenantIsAsked(x.tenantColumn.value, cs, s, r);
    }
    if x.workspaceColumn.Some? {
      OthersAreAsked(x.workspaceColumn.value, cs, r);
    }
    if x.brandColumn.Some? {
      OthersAreAsked(x.brandColumn.value, cs, r);
    }
    if x.systemColumn.Some? {
      OthersAreAsked(x.systemColumn.value, cs, r);
    }
  }

  lemma WhereIsBelonging(x: Section, c: Container, s: Subject, r: Row)
    ensures ContainerWhere(x, c, s, r) <==> Belongs(x, c, s, r)
  {
  }

  /** Every row the per-container loader returns is a row of the table that is the container's, shown safely. */
  lemma ContainerRowsBelong(table: seq<Row>, x: Section, c: Container, s: Subject, blocked: string -> bool, k: nat)
    requires k < |ContainerRows(table, x, c, s, blocked)|
    ensures exists r :: && r in table && Belongs(x, c, s, r)
                        && Shows(ContainerRows(table, x, c, s, blocked)[k], r, x, blocked)
  {
    var found := Take(Filter(table, r => ContainerWhere(x, c, s, r)), RowLimit(x));
    var r := found[k];
    assert r in Filter(table, r => ContainerWhere(x, c, s, r));
    WhereIsBelonging(x, c, s, r);
    assert Shows(ContainerRows(table, x, c, s, blocked)[k], r, x, blocked);
  }

  /** The same of every row the batched loader hands to a container. */
  lemma BatchRowsBelong(table: seq<Row>, x: Section, cs: seq<Container>, i: nat, s: Subject, blocked: string -> bool,
                        k: nat)
    requires i < |cs| && ValidContainer(cs[i])
    requires k < |BatchRows(BatchQuery(table, x, cs, s), x, cs[i], s, blocked)|
    ensures exists r :: && r in table && Belongs(x, cs[i], s, r)
                        && Shows(BatchRows(BatchQuery(table, x, cs, s), x, cs[i], s, blocked)[k], r, x, blocked)
  {
    BatchAgreesWithContainer(table, x, cs, i, s, blocked);
    ContainerRowsBelong(table, x, cs[i], s, blocked, k);
  }

  /** The per-container loader leaves out only rows beyond its limit. */
  lemma ContainerRowsComplete(table: seq<Row>, x: Section, c: Container, s: Subject, blocked: string -> bool)
    requires x.columns != []
    ensures var mine := Filter(table, r => Belongs(x, c, s, r));
            && |ContainerRows(table, x, c, s, blocked)| == (if |mine| <= RowLimit(x) then |mine| else RowLimit(x))
            && forall k :: 0 <= k < |ContainerRows(table, x, c, s, blocked)| ==>
                 Shows(ContainerRows(table, x, c, s, blocked)[k], mine[k], x, blocked)
  {
    var passes: Row -> bool := r => ContainerWhere(x, c, s, r);
    var belongs: Row -> bool := r => Belongs(x, c, s, r);
    SameFilter(table, passes, belongs);
    var found := Take(Filter(table, passes), RowLimit(x));
    var out := ContainerRows(table, x, c, s, blocked);
    assert |out| == |found|;
    forall k | 0 <= k < |out| ensures Shows(out[k], Filter(table, belongs)[k], x, blocked) {
      assert out[k] == Strip(Select(found[k], ColumnSet(x)), blocked);
    }
  }

  lemma {:induction false} SameFilter(table: seq<Row>, p: Row -> bool, q: Row -> bool)
    requires forall r :: p(r) == q(r)
    ensures Filter(table, p) == Filter(table, q)
  {
    if table != [] {
      SameFilter(table[1..], p, q);
    }
  }

  // ---------------------------------------------------------------- the map that is returned

  /** What a container's key is answered with, against what the per-container loader would return. */
  ghost predicate AgreesWithContainers(byContainer: map<string, seq<Row>>, table: seq<Row>, x: Section,
                                       cs: seq<Container>, s: Subject, blocked: string -> bool) {
    forall i :: 0 <= i < |cs| && LastOfKey(cs, i) ==>
      && cs[i].key in byContainer
      && byContainer[cs[i].key] <= ContainerRows(table, x, cs[i], s, blocked)
      && (Bound(x, cs[i], s) && Uncut(table, x, cs, s) ==>
            byContainer[cs[i].key] == ContainerRows(table, x, cs[i], s, blocked))
  }

  lemma HandedOutAgrees(table: seq<Row>, x: Section, cs: seq<Container>, s: Subject, blocked: string -> bool)
    requires forall i :: 0 <= i < |cs| ==> ValidContainer(cs[i])
    ensures AgreesWithContainers(HandedOut(BatchQuery(table, x, cs, s), x, cs, s, blocked), table, x, cs, s, blocked)
  {
    var rows := BatchQuery(table, x, cs, s);
    var byContainer := HandedOut(rows, x, cs, s, blocked);
    HandedOutAnswers(rows, x, cs, s, blocked);
    forall i | 0 <= i < |cs| && LastOfKey(cs, i)
      ensures cs[i].key in byContainer && byContainer[cs[i].key] == BatchRows(rows, x, cs[i], s, blocked)
      ensures byContainer[cs[i].key] <= ContainerRows(table, x, cs[i], s, blocked)
      ensures Bound(x, cs[i], s) && Uncut(table, x, cs, s) ==>
                byContainer[cs[i].key] == ContainerRows(table, x, cs[i], s, blocked)
    {
      BatchAgreesWithContainer(table, x, cs, i, s, blocked);
    }
  }

  /** `loadSectionRowsBatch`: one query, then one entry per container, agreeing with the per-container loader. */
  method LoadSectionRowsBatch(table: seq<Row>, x: Section, cs: seq<Container>, s: Subject, blocked: string -> bool)
    returns (byContainer: map<string, seq<Row>>)
    requires forall i :: 0 <= i < |cs| ==> ValidContainer(cs[i])
    ensures Answers(byContainer, BatchQuery(table, x, cs, s), x, cs, s, blocked)
    ensures AgreesWithContainers(byContainer, table, x, cs, s, blocked)
  {
    var rows := BatchQuery(table, x, cs, s);
    byContainer := map[];
    for n := 0 to |cs|
      invariant byContainer == HandedOut(rows, x, cs[..n], s, blocked)
    {
      assert cs[..n + 1][..n] == cs[..n];
      byContainer := byContainer[cs[n].key := BatchRows(rows, x, cs[n], s, blocked)];
    }
    assert cs[..|cs|] == cs;
    HandedOutAnswers(rows, x, cs, s, blocked);
    HandedOutAgrees(table, x, cs, s, blocked);
  }
}
