/**
  Keyset pagination of the charging history
  (apps/backend/src/charging-history/charging-history.repository.ts).

  Instants, energies, amounts and ids are integers; the signed cursor text stands for its decoded
  record (the codec is taken as an exact inverse). `table` is the joined charging_sessions table.
 */
module HistoryPages {
  import opened Common
  import opened Ordering
  import opened SessionLifecycle

  datatype Row = Row(
    id: int, deleted: bool, userId: int, tenantId: int, stationDeleted: bool,
    vehicleId: int, stationId: int, plugType: int, stationName: string, stationCity: string,
    status: Status, createdAt: int, startedAt: Option<int>, stoppedAt: Option<int>, completedAt: Option<int>,
    energyWh: int, totalAmount: int)

  datatype SortOption =
    | RECENT | OLDEST | ENERGY_ASC | ENERGY_DESC | DURATION_ASC | DURATION_DESC | COST_ASC | COST_DESC

  datatype Direction = ASC | DESC

  /** `search` is the trimmed text, None when it is blank. */
  datatype Filters = Filters(
    from: int, to: int, vehicleId: Option<int>, stationId: Option<int>, status: Option<Status>,
    connectorType: Option<int>, withCost: bool, failuresOnly: bool, completedOnly: bool,
    search: Option<string>)

  datatype Query = Query(filters: Filters, sort: SortOption, cursor: Option<Cursor>, limit: nat)

  datatype Cursor = Cursor(asOf: int, id: int, sort: SortOption, value: int)

  datatype Page = Page(asOf: int, endCursor: Option<Cursor>, hasNextPage: bool, items: seq<Row>)

  datatype PageResult = Listed(page: Page) | InvalidCursor

  datatype User = User(sub: int, tenantId: int)

  // ---------------------------------------------------------------- sortConfiguration

  function Coalesce(first: Option<int>, second: int): int {
    if first.Some? then first.value else second
  }

  function Started(row: Row): int {
    Coalesce(row.startedAt, row.createdAt)
  }

  function Duration(row: Row, asOf: int): int {
    Max(0, Coalesce(row.completedAt, Coalesce(row.stoppedAt, asOf)) - Started(row))
  }

  function DirectionOf(sort: SortOption): Direction {
    match sort
    case RECENT | ENERGY_DESC | DURATION_DESC | COST_DESC => DESC
    case OLDEST | ENERGY_ASC | DURATION_ASC | COST_ASC => ASC
  }

  function SortValue(sort: SortOption, row: Row, asOf: int): int {
    match sort
    case RECENT | OLDEST => Started(row)
    case ENERGY_ASC | ENERGY_DESC => row.energyWh
    case DURATION_ASC | DURATION_DESC => Duration(row, asOf)
    case COST_ASC | COST_DESC => row.totalAmount
  }

  /** ORDER BY expression direction, id direction. */
  predicate AtOrBefore(sort: SortOption, asOf: int, a: Row, b: Row) {
    var (va, vb) := (SortValue(sort, a, asOf), SortValue(sort, b, asOf));
    match DirectionOf(sort)
    case ASC => va < vb || (va == vb && a.id <= b.id)
    case DESC => va > vb || (va == vb && a.id >= b.id)
  }

  function OrderBy(sort: SortOption, asOf: int): (Row, Row) -> bool {
    (a: Row, b: Row) => AtOrBefore(sort, asOf, a, b)
  }

  /** cursorCondition */
  predicate BeyondCursor(row: Row, cursor: Cursor) {
    var value := SortValue(cursor.sort, row, cursor.asOf);
    match DirectionOf(cursor.sort)
    case ASC => value > cursor.value || (value == cursor.value && row.id > cursor.id)
    case DESC => value < cursor.value || (value == cursor.value && row.id < cursor.id)
  }

  // ---------------------------------------------------------------- conditions

  /** One conjunct of the WHERE clause; `like` stands for ILIKE. */
  datatype Condition =
    | NotDeleted | StationNotDeleted | OfUser(u: int) | OfTenant(t: int)
    | StartedFrom(from: int) | StartedTo(to: int)
    | OfVehicle(v: int) | OfStation(s: int) | HasStatus(status: Status) | HasPlug(plug: int)
    | CostNotNegative | NameOrCityLike(pattern: string)

  predicate Holds(c: Condition, row: Row, like: (string, string) -> bool) {
    match c
    case NotDeleted => !row.deleted
    case StationNotDeleted => !row.stationDeleted
    case OfUser(u) => row.userId == u
    case OfTenant(t) => row.tenantId == t
    case StartedFrom(from) => Started(row) >= from
    case StartedTo(to) => Started(row) <= to
    case OfVehicle(v) => row.vehicleId == v
    case OfStation(s) => row.stationId == s
    case HasStatus(status) => row.status == status
    case HasPlug(plug) => row.plugType == plug
    case CostNotNegative => row.totalAmount >= 0
    case NameOrCityLike(pattern) => like(row.stationName, pattern) || like(row.stationCity, pattern)
  }

  predicate AllHold(conditions: seq<Condition>, row: Row, like: (string, string) -> bool) {
    conditions == []
    || (AllHold(conditions[..|conditions| - 1], row, like) && Holds(conditions[|conditions| - 1], row, like))
  }

  function Pattern(text: string): string {
    "%" + text + "%"
  }

  /** Which rows a query asks for. */
  predicate Matches(user: User, q: Filters, row: Row, like: (string, string) -> bool) {
    && !row.deleted && !row.stationDeleted
    && row.userId == user.sub && row.tenantId == user.tenantId
    && q.from <= Started(row) <= q.to
    && (q.vehicleId.Some? ==> row.vehicleId == q.vehicleId.value)
    && (q.stationId.Some? ==> row.stationId == q.stationId.value)
    && (q.status.Some? ==> row.status == q.status.value)
    && (q.connectorType.Some? ==> row.plugType == q.connectorType.value)
    && (q.withCost ==> row.status == COMPLETED && row.totalAmount >= 0)
    && (q.failuresOnly ==> row.status == FAILED)
    && (q.completedOnly ==> row.status == COMPLETED)
    && (q.search.Some? ==>
          like(row.stationName, Pattern(q.search.value)) || like(row.stationCity, Pattern(q.search.value)))
  }

  function Matching(user: User, q: Filters, like: (string, string) -> bool): Row -> bool {
    (row: Row) => Matches(user, q, row, like)
  }

  function MatchingBeyond(user: User, q: Filters, like: (string, string) -> bool, cursor: Option<Cursor>): Row -> bool {
    (row: Row) => Matches(user, q, row, like) && (cursor.None? || BeyondCursor(row, cursor.value))
  }

  function Pushed(conditions: seq<Condition>, condition: Option<Condition>): seq<Condition> {
    if condition.Some? then conditions + [condition.value] else conditions
  }

  function BaseConditions(user: User, q: Filters): seq<Condition> {
    [NotDeleted, OfUser(user.sub), OfTenant(user.tenantId), StationNotDeleted, StartedFrom(q.from), StartedTo(q.to)]
  }

  function FilterBy<T>(value: Option<T>, condition: T -> Condition): Option<Condition> {
    if value.Some? then Some(condition(value.value)) else None
  }

  function FilterIf(flag: bool, condition: Condition): Option<Condition> {
    if flag then Some(condition) else None
  }

  /** The conjuncts a query pushes, in order: the plain filters, then the flags and the search. */
  function PlainConditions(user: User, q: Filters): seq<Condition> {
    var c1 := Pushed(BaseConditions(user, q), FilterBy(q.vehicleId, v => OfVehicle(v)));
    var c2 := Pushed(c1, FilterBy(q.stationId, s => OfStation(s)));
    var c3 := Pushed(c2, FilterBy(q.status, st => HasStatus(st)));
    Pushed(c3, FilterBy(q.connectorType, p => HasPlug(p)))
  }

  function FlagConditions(user: User, q: Filters): seq<Condition> {
    var c5 := Pushed(PlainConditions(user, q), FilterIf(q.withCost, HasStatus(COMPLETED)));
    var c6 := Pushed(c5, FilterIf(q.withCost, CostNotNegative));
    var c7 := Pushed(c6, FilterIf(q.failuresOnly, HasStatus(FAILED)));
    Pushed(c7, FilterIf(q.completedOnly, HasStatus(COMPLETED)))
  }

  function ConditionsOf(user: User, q: Filters): seq<Condition> {
    Pushed(FlagConditions(user, q), FilterBy(q.search, t => NameOrCityLike(Pattern(t))))
  }

  /** The conditions array of `list`, pushed one by one. */
  method PushConditions(user: User, q: Filters) returns (conditions: seq<Condition>)
    ensures conditions == ConditionsOf(user, q)
  {
    conditions := BaseConditions(user, q);
    if q.vehicleId.Some? {
      conditions := conditions + [OfVehicle(q.vehicleId.value)];
    }
    if q.stationId.Some? {
      conditions := conditions + [OfStation(q.stationId.value)];
    }
    if q.status.Some? {
      conditions := conditions + [HasStatus(q.status.value)];
    }
    if q.connectorType.Some? {
      conditions := conditions + [HasPlug(q.connectorType.value)];
    }
    assert conditions == PlainConditions(user, q);
    if q.withCost {
      conditions := conditions + [HasStatus(COMPLETED)];
      conditions := conditions + [CostNotNegative];
    }
    if q.failuresOnly {
      conditions := conditions + [HasStatus(FAILED)];
    }
    if q.completedOnly {
      conditions := conditions + [HasStatus(COMPLETED)];
    }
    if q.search.Some? {
      conditions := conditions + [NameOrCityLike(Pattern(q.search.value))];
    }
  }

  lemma PushedHold(conditions: seq<Condition>, condition: Option<Condition>, row: Row, like: (string, string) -> bool)
    ensures AllHold(Pushed(conditions, condition), row, like) <==>
            AllHold(conditions, row, like) && (condition.Some? ==> Holds(condition.value, row, like))
  {
  }

  lemma BaseConditionsHold(user: User, q: Filters, row: Row, like: (string, string) -> bool)
    ensures AllHold(BaseConditions(user, q), row, like) <==>
            !row.deleted && !row.stationDeleted && row.userId == user.sub && row.tenantId == user.tenantId
            && q.from <= Started(row) <= q.to
  {
    var c0 := BaseConditions(user, q);
    var (c1, c2, c3, c4, c5) := (c0[..5], c0[..4], c0[..3], c0[..2], c0[..1]);
    assert c0[..5] == c1 && c1[..4] == c2 && c2[..3] == c3 && c3[..2] == c4 && c4[..1] == c5 && c5[..0] == [];
    assert AllHold(c5, row, like) <==> Holds(c0[0], row, like);
    assert AllHold(c4, row, like) <==> AllHold(c5, row, like) && Holds(c0[1], row, like);
    assert AllHold(c3, row, like) <==> AllHold(c4, row, like) && Holds(c0[2], row, like);
    assert AllHold(c2, row, like) <==> AllHold(c3, row, like) && Holds(c0[3], row, like);
    assert AllHold(c1, row, like) <==> AllHold(c2, row, like) && Holds(c0[4], row, like);
  }

  lemma PlainConditionsHold(user: User, q: Filters, row: Row, like: (string, string) -> bool)
    ensures AllHold(PlainConditions(user, q), row, like) <==>
            && AllHold(BaseConditions(user, q), row, like)
            && (q.vehicleId.Some? ==> row.vehicleId == q.vehicleId.value)
            && (q.stationId.Some? ==> row.stationId == q.stationId.value)
            && (q.status.Some? ==> row.status == q.status.value)
            && (q.connectorType.Some? ==> row.plugType == q.connectorType.value)
  {
    var c0 := BaseConditions(user, q);
    var c1 := Pushed(c0, FilterBy(q.vehicleId, v => OfVehicle(v)));
    var c2 := Pushed(c1, FilterBy(q.stationId, s => OfStation(s)));
    var c3 := Pushed(c2, FilterBy(q.status, st => HasStatus(st)));
    PushedHold(c0, FilterBy(q.vehicleId, v => OfVehicle(v)), row, like);
    PushedHold(c1, FilterBy(q.stationId, s => OfStation(s)), row, like);
    PushedHold(c2, FilterBy(q.status, st => HasStatus(st)), row, like);
    PushedHold(c3, FilterBy(q.connectorType, p => HasPlug(p)), row, like);
  }

  lemma FlagConditionsHold(user: User, q: Filters, row: Row, like: (string, string) -> bool)
    ensures AllHold(FlagConditions(user, q), row, like) <==>
            && AllHold(PlainConditions(user, q), row, like)
            && (q.withCost ==> row.status == COMPLETED && row.totalAmount >= 0)
            && (q.failuresOnly ==> row.status == FAILED)
            && (q.completedOnly ==> row.status == COMPLETED)
  {
    var c4 := PlainConditions(user, q);
    var c5 := Pushed(c4, FilterIf(q.withCost, HasStatus(COMPLETED)));
    var c6 := Pushed(c5, FilterIf(q.withCost, CostNotNegative));
    var c7 := Pushed(c6, FilterIf(q.failuresOnly, HasStatus(FAILED)));
    PushedHold(c4, FilterIf(q.withCost, HasStatus(COMPLETED)), row, like);
    PushedHold(c5, FilterIf(q.withCost, CostNotNegative), row, like);
    PushedHold(c6, FilterIf(q.failuresOnly, HasStatus(FAILED)), row, like);
    PushedHold(c7, FilterIf(q.completedOnly, HasStatus(COMPLETED)), row, like);
  }

  /** The pushed conjuncts together say which rows the query asks for. */
  lemma ConditionsSayMatches(user: User, q: Filters, row: Row, like: (string, string) -> bool)
    ensures AllHold(ConditionsOf(user, q), row, like) <==> Matches(user, q, row, like)
  {
    BaseConditionsHold(user, q, row, like);
    PlainConditionsHold(user, q, row, like);
    FlagConditionsHold(user, q, row, like);
    PushedHold(FlagConditions(user, q), FilterBy(q.search, t => NameOrCityLike(Pattern(t))), row, like);
  }

  // ---------------------------------------------------------------- list

  function Take(rows: seq<Row>, n: nat): seq<Row> {
    if |rows| <= n then rows else rows[..n]
  }

  /** findMany by id, then the rows of the page in the order of the first query. */
  function RowsById(table: seq<Row>, ids: seq<int>): seq<Row> {
    if ids == [] then []
    else Filter(table, (row: Row) => row.id == ids[0]) + RowsById(table, ids[1..])
  }

  function Ids(rows: seq<Row>): seq<int> {
    seq(|rows|, i requires 0 <= i < |rows| => rows[i].id)
  }

  function CursorOf(row: Row, sort: SortOption, asOf: int): Cursor {
    Cursor(asOf, row.id, sort, SortValue(sort, row, asOf))
  }

  /** The page cut from the ordered rows of the first query. */
  function PageFrom(table: seq<Row>, ordered: seq<Row>, sort: SortOption, asOf: int, limit: nat): Page {
    var rows := Take(ordered, limit + 1);
    var pageRows := Take(rows, limit);
    if pageRows == [] then Page(asOf, None, false, [])
    else Page(asOf, Some(CursorOf(pageRows[|pageRows| - 1], sort, asOf)), |rows| > limit, RowsById(table, Ids(pageRows)))
  }

  /** WHERE the conditions and the cursor condition, ORDER BY the sort. */
  function OrderedRows(table: seq<Row>, user: User, q: Query, asOf: int, like: (string, string) -> bool): seq<Row> {
    Sort(Filter(table, MatchingBeyond(user, q.filters, like, q.cursor)), OrderBy(q.sort, asOf))
  }

  function ListPage(table: seq<Row>, user: User, q: Query, now: int, like: (string, string) -> bool): PageResult {
    if q.cursor.Some? && q.cursor.value.sort != q.sort then InvalidCursor
    else
      var asOf := if q.cursor.Some? then q.cursor.value.asOf else now;
      Listed(PageFrom(table, OrderedRows(table, user, q, asOf, like), q.sort, asOf, q.limit))
  }

  /** `list` as the source writes it: conditions are pushed one by one, then the page is cut. */
  method List(table: seq<Row>, user: User, q: Query, now: int, like: (string, string) -> bool)
    returns (result: PageResult)
    ensures result == ListPage(table, user, q, now, like)
  {
    hide Matches, BeyondCursor, AllHold, RowsById, CursorOf, Sort;
    if q.cursor.Some? && q.cursor.value.sort != q.sort {
      return InvalidCursor;
    }
    var asOf := if q.cursor.Some? then q.cursor.value.asOf else now;
    var conditions := PushConditions(user, q.filters);
    var cursor := q.cursor;
    var selected := (row: Row) => AllHold(conditions, row, like) && (cursor.None? || BeyondCursor(row, cursor.value));
    assert Filter(table, selected) == Filter(table, MatchingBeyond(user, q.filters, like, q.cursor)) by {
      forall row | row in table ensures selected(row) <==> MatchingBeyond(user, q.filters, like, q.cursor)(row) {
        ConditionsSayMatches(user, q.filters, row, like);
      }
      FilterSame(table, selected, MatchingBeyond(user, q.filters, like, q.cursor));
    }
    var ordered := Sort(Filter(table, selected), OrderBy(q.sort, asOf));
    var rows := if |ordered| <= q.limit + 1 then ordered else ordered[..q.limit + 1];
    var hasNextPage := |rows| > q.limit;
    var pageRows := if hasNextPage then rows[..q.limit] else rows;
    if |pageRows| == 0 {
      return Listed(Page(asOf, None, false, []));
    }
    var items := RowsById(table, Ids(pageRows));
    var last := pageRows[|pageRows| - 1];
    result := Listed(Page(asOf, Some(CursorOf(last, q.sort, asOf)), hasNextPage, items));
  }

  lemma {:induction false} FilterSame(rows: seq<Row>, f: Row -> bool, g: Row -> bool)
    requires forall row :: row in rows ==> (f(row) <==> g(row))
    ensures Filter(rows, f) == Filter(rows, g)
  {
    if rows != [] {
      FilterSame(rows[1..], f, g);
    }
  }

  // ---------------------------------------------------------------- the listing as a whole

  function Id(): Row -> int {
    (row: Row) => row.id
  }

  /** The primary key. */
  ghost predicate DistinctIds(table: seq<Row>) {
    DistinctKeys(table, Id())
  }

  lemma OrderIsTotal(sort: SortOption, asOf: int)
    ensures TotalOrder(OrderBy(sort, asOf))
  {
  }

  // The order in terms of the rows.

  ghost function Began(row: Row): int {
    if row.startedAt.Some? then row.startedAt.value else row.createdAt
  }

  /** From the start to the completion, else to the stop, else to the given instant; never below zero. */
  ghost predicate Lasted(row: Row, asOf: int, duration: int) {
    && duration >= 0
    && (row.completedAt.Some? ==> duration == Max(0, row.completedAt.value - Began(row)))
    && (row.completedAt.None? && row.stoppedAt.Some? ==> duration == Max(0, row.stoppedAt.value - Began(row)))
    && (row.completedAt.None? && row.stoppedAt.None? ==> duration == Max(0, asOf - Began(row)))
  }

  ghost predicate Rises(x: int, y: int, a: Row, b: Row) {
    x < y || (x == y && a.id <= b.id)
  }

  ghost predicate Falls(x: int, y: int, a: Row, b: Row) {
    x > y || (x == y && a.id >= b.id)
  }

  /** Row b may stand behind row a: what each of the eight sorts promises, ties in the direction of the ids. */
  ghost predicate MayFollow(sort: SortOption, asOf: int, a: Row, b: Row) {
    match sort
    case RECENT => Falls(Began(a), Began(b), a, b)
    case OLDEST => Rises(Began(a), Began(b), a, b)
    case ENERGY_ASC => Rises(a.energyWh, b.energyWh, a, b)
    case ENERGY_DESC => Falls(a.energyWh, b.energyWh, a, b)
    case DURATION_ASC => forall x, y :: Lasted(a, asOf, x) && Lasted(b, asOf, y) ==> Rises(x, y, a, b)
    case DURATION_DESC => forall x, y :: Lasted(a, asOf, x) && Lasted(b, asOf, y) ==> Falls(x, y, a, b)
    case COST_ASC => Rises(a.totalAmount, b.totalAmount, a, b)
    case COST_DESC => Falls(a.totalAmount, b.totalAmount, a, b)
  }

  /** The rows stand in the order of the sort. */
  ghost predicate InOrder(rows: seq<Row>, sort: SortOption, asOf: int) {
    forall i, j :: 0 <= i < j < |rows| ==> MayFollow(sort, asOf, rows[i], rows[j])
  }

  /** Every row lasted some time, so the two sorts by duration promise something. */
  lemma OneDuration(row: Row, asOf: int)
    ensures Lasted(row, asOf, Duration(row, asOf))
    ensures forall d :: Lasted(row, asOf, d) ==> d == Duration(row, asOf)
  {
  }

  lemma OrderSaysMayFollow(sort: SortOption, asOf: int, a: Row, b: Row)
    ensures AtOrBefore(sort, asOf, a, b) <==> MayFollow(sort, asOf, a, b)
  {
    OneDuration(a, asOf);
    OneDuration(b, asOf);
  }

  lemma SortedIsInOrder(rows: seq<Row>, sort: SortOption, asOf: int)
    requires SortedBy(rows, OrderBy(sort, asOf))
    ensures InOrder(rows, sort, asOf)
  {
    var le := OrderBy(sort, asOf);
    forall i, j | 0 <= i < j < |rows| ensures MayFollow(sort, asOf, rows[i], rows[j]) {
      assert le(rows[i], rows[j]);
      OrderSaysMayFollow(sort, asOf, rows[i], rows[j]);
    }
  }

  /**
    Any page, whatever cursor asks for it: rows of the table that match and began within the period, at
    most `limit` of them, in the order of the sort at the instant of the cursor or else of the clock.
   */
  lemma PageIsInOrder(table: seq<Row>, user: User, q: Query, now: int, like: (string, string) -> bool)
    requires DistinctIds(table) && ListPage(table, user, q, now, like).Listed?
    ensures
      var page := ListPage(table, user, q, now, like).page;
      && page.asOf == (if q.cursor.Some? then q.cursor.value.asOf else now)
      && InOrder(page.items, q.sort, page.asOf) && |page.items| <= q.limit
      && (forall row :: row in page.items ==>
            row in table && Matches(user, q.filters, row, like) && q.filters.from <= Began(row) <= q.filters.to)
  {
    var asOf := if q.cursor.Some? then q.cursor.value.asOf else now;
    var ordered := OrderedRows(table, user, q, asOf, like);
    OrderedRowsMatch(table, user, q, asOf, like);
    PageHoldsTheFirst(table, ordered, q.sort, asOf, q.limit);
    PrefixIsInOrder(ordered, q.limit, q.sort, asOf);
    hide OrderedRows, DistinctIds, Matches, InOrder, PageFrom, Take, Began;
  }

  /** A page holds the first rows it is cut from. */
  lemma PageHoldsTheFirst(table: seq<Row>, ordered: seq<Row>, sort: SortOption, asOf: int, limit: nat)
    requires DistinctIds(table) && forall row :: row in ordered ==> row in table
    ensures PageFrom(table, ordered, sort, asOf, limit).items == Take(ordered, limit)
    ensures PageFrom(table, ordered, sort, asOf, limit).asOf == asOf
  {
    hide DistinctIds, RowsById, CursorOf;
    var rows := Take(ordered, limit);
    assert Take(Take(ordered, limit + 1), limit) == rows;
    assert forall row :: row in rows ==> row in ordered;
    RowsByIdRestoresThePage(table, rows);
  }

  lemma PrefixIsInOrder(rows: seq<Row>, n: nat, sort: SortOption, asOf: int)
    requires InOrder(rows, sort, asOf)
    ensures InOrder(Take(rows, n), sort, asOf) && |Take(rows, n)| <= n
    ensures forall row :: row in Take(rows, n) ==> row in rows
  {
    hide MayFollow;
  }

  lemma OrderedRowsMatch(table: seq<Row>, user: User, q: Query, asOf: int, like: (string, string) -> bool)
    ensures
      var ordered := OrderedRows(table, user, q, asOf, like);
      && InOrder(ordered, q.sort, asOf)
      && (forall row :: row in ordered ==>
            row in table && Matches(user, q.filters, row, like) && q.filters.from <= Began(row) <= q.filters.to)
  {
    var keep := MatchingBeyond(user, q.filters, like, q.cursor);
    var ordered := OrderedRows(table, user, q, asOf, like);
    OrderIsTotal(q.sort, asOf);
    SortSorts(Filter(table, keep), OrderBy(q.sort, asOf));
    FilterKeeps(table, keep);
    SortedIsInOrder(ordered, q.sort, asOf);
    forall row | row in ordered ensures row in table && keep(row) {
      assert row in multiset(ordered);
      assert row in Filter(table, keep);
      hide MatchingBeyond, InOrder;
    }
    hide InOrder;
  }

  /** The reference: all rows the query asks for, sorted. */
  function SortedListing(table: seq<Row>, user: User, q: Filters, sort: SortOption, asOf: int, like: (string, string) -> bool): seq<Row> {
    Sort(Filter(table, Matching(user, q, like)), OrderBy(sort, asOf))
  }

  lemma {:induction false} FilterDistinct(table: seq<Row>, keep: Row -> bool)
    requires DistinctIds(table)
    ensures DistinctIds(Filter(table, keep))
  {
    if table != [] {
      FilterDistinct(table[1..], keep);
      FilterKeeps(table[1..], keep);
      var key := Id();
      var tail := Filter(table[1..], keep);
      forall k | 0 <= k < |tail| ensures key(tail[k]) != key(table[0]) {
        assert tail[k] in table[1..];
      }
    }
  }

  lemma ListingIsStrict(table: seq<Row>, user: User, q: Query, asOf: int, like: (string, string) -> bool)
    requires DistinctIds(table)
    ensures
      var listing := SortedListing(table, user, q.filters, q.sort, asOf, like);
      && SortedBy(listing, OrderBy(q.sort, asOf))
      && DistinctIds(listing)
      && (forall row :: row in listing <==> row in table && Matches(user, q.filters, row, like))
  {
    var keep, le := Matching(user, q.filters, like), OrderBy(q.sort, asOf);
    OrderIsTotal(q.sort, asOf);
    FilterDistinct(table, keep);
    FilterKeeps(table, keep);
    SortSorts(Filter(table, keep), le);
    SortDistinct(Filter(table, keep), le, Id());
    var listing := SortedListing(table, user, q.filters, q.sort, asOf, like);
    forall row ensures row in listing <==> row in table && Matches(user, q.filters, row, like) {
      assert row in listing <==> row in multiset(listing);
      assert row in Filter(table, keep) <==> row in multiset(Filter(table, keep));
    }
  }

  /** For two rows of the listing, "after" and "beyond the cursor" are the same. */
  lemma BeyondIffAfter(sort: SortOption, asOf: int, a: Row, b: Row)
    requires AtOrBefore(sort, asOf, a, b)
    ensures !BeyondCursor(a, CursorOf(b, sort, asOf))
    ensures a.id != b.id ==> BeyondCursor(b, CursorOf(a, sort, asOf))
  {
  }

  lemma CursorCutsAStrictList(listing: seq<Row>, sort: SortOption, asOf: int, k: nat, beyond: Row -> bool)
    requires SortedBy(listing, OrderBy(sort, asOf)) && DistinctIds(listing) && k < |listing|
    requires forall row :: beyond(row) <==> BeyondCursor(row, CursorOf(listing[k], sort, asOf))
    ensures Filter(listing, beyond) == listing[k + 1..]
  {
    hide BeyondCursor, AtOrBefore, Filter;
    var le, key := OrderBy(sort, asOf), Id();
    var front, back := listing[..k + 1], listing[k + 1..];
    assert listing == front + back;
    FilterConcat(front, back, beyond);
    forall row | row in front ensures !beyond(row) {
      var i :| 0 <= i < k + 1 && front[i] == row;
      assert i < k ==> le(listing[i], listing[k]);
      BeyondIffAfter(sort, asOf, listing[i], listing[k]);
    }
    FilterNothing(front, beyond);
    forall row | row in back ensures beyond(row) {
      var i :| 0 <= i < |back| && back[i] == row;
      assert le(listing[k], listing[k + 1 + i]) && key(listing[k]) != key(listing[k + 1 + i]);
      BeyondIffAfter(sort, asOf, listing[k], listing[k + 1 + i]);
    }
    FilterAll(back, beyond);
  }

  /** Behind the k-th row of the listing the cursor condition leaves exactly the rest of the listing. */
  lemma CursorCutsTheListing(table: seq<Row>, user: User, q: Query, asOf: int, like: (string, string) -> bool, k: nat)
    requires DistinctIds(table)
    requires k < |SortedListing(table, user, q.filters, q.sort, asOf, like)|
    ensures
      var listing := SortedListing(table, user, q.filters, q.sort, asOf, like);
      var cursor := Some(CursorOf(listing[k], q.sort, asOf));
      Sort(Filter(table, MatchingBeyond(user, q.filters, like, cursor)), OrderBy(q.sort, asOf)) == listing[k + 1..]
  {
    var listing := SortedListing(table, user, q.filters, q.sort, asOf, like);
    var cursor := CursorOf(listing[k], q.sort, asOf);
    var beyond := (row: Row) => BeyondCursor(row, cursor);
    var le := OrderBy(q.sort, asOf);
    FilterFilter(table, Matching(user, q.filters, like), beyond, MatchingBeyond(user, q.filters, like, Some(cursor)));
    OrderIsTotal(q.sort, asOf);
    SortFilter(Filter(table, Matching(user, q.filters, like)), le, beyond);
    ListingIsStrict(table, user, q, asOf, like);
    CursorCutsAStrictList(listing, q.sort, asOf, k, beyond);
  }

  lemma {:induction false} LookupFindsTheRow(table: seq<Row>, row: Row)
    requires DistinctIds(table) && row in table
    ensures Filter(table, (r: Row) => r.id == row.id) == [row]
  {
    var same := (r: Row) => r.id == row.id;
    var key := Id();
    var i :| 0 <= i < |table| && table[i] == row;
    assert table == table[..i] + ([row] + table[i + 1..]);
    FilterConcat(table[..i], [row] + table[i + 1..], same);
    FilterConcat([row], table[i + 1..], same);
    forall r | r in table[..i] ensures !same(r) {
      var j :| 0 <= j < i && table[j] == r;
      assert key(table[j]) != key(table[i]);
    }
    FilterNothing(table[..i], same);
    forall r | r in table[i + 1..] ensures !same(r) {
      var j :| i + 1 <= j < |table| && table[j] == r;
      assert key(table[i]) != key(table[j]);
    }
    FilterNothing(table[i + 1..], same);
    assert [row][1..] == [];
  }

  /** The second query returns the very rows of the first one, in their order. */
  lemma {:induction false} RowsByIdRestoresThePage(table: seq<Row>, rows: seq<Row>)
    requires DistinctIds(table) && forall row :: row in rows ==> row in table
    ensures RowsById(table, Ids(rows)) == rows
  {
    if rows != [] {
      assert Ids(rows)[1..] == Ids(rows[1..]);
      RowsByIdRestoresThePage(table, rows[1..]);
      LookupFindsTheRow(table, rows[0]);
      FilterSame(table, (r: Row) => r.id == Ids(rows)[0], (r: Row) => r.id == rows[0].id);
    }
  }

  /** The cursor a client holds after the first `k` rows of the listing pinned at `asOf`. */
  predicate CursorAfter(listing: seq<Row>, k: nat, sort: SortOption, asOf: int, cursor: Option<Cursor>) {
    k <= |listing| && cursor == if k == 0 then None else Some(CursorOf(listing[k - 1], sort, asOf))
  }

  /** What the cursor a client holds leaves of the table is the unserved rest of the listing. */
  lemma RestOfTheListing(table: seq<Row>, user: User, q: Query, like: (string, string) -> bool, asOf: int, k: nat)
    requires DistinctIds(table)
    requires CursorAfter(SortedListing(table, user, q.filters, q.sort, asOf, like), k, q.sort, asOf, q.cursor)
    ensures OrderedRows(table, user, q, asOf, like) == SortedListing(table, user, q.filters, q.sort, asOf, like)[k..]
  {
    if k == 0 {
      FilterSame(table, MatchingBeyond(user, q.filters, like, None), Matching(user, q.filters, like));
    } else {
      CursorCutsTheListing(table, user, q, asOf, like, k - 1);
    }
  }

  /** An answer that is the next slice of the listing pinned at `asOf`. */
  ghost predicate IsNextSlice(result: PageResult, listing: seq<Row>, k: nat, limit: nat, sort: SortOption, asOf: int) {
    && k <= |listing|
    && result.Listed?
    && result.page.items == listing[k..Min(k + limit, |listing|)]
    && (result.page.hasNextPage <==> k + limit < |listing|)
    && (result.page.hasNextPage ==> CursorAfter(listing, k + limit, sort, asOf, result.page.endCursor))
    && result.page.asOf == asOf
  }

  /** The page cut from the unserved rest of a listing is its next slice. */
  lemma PageFromSlice(table: seq<Row>, listing: seq<Row>, sort: SortOption, asOf: int, k: nat, limit: nat)
    requires DistinctIds(table) && k <= |listing| && limit >= 1
    requires forall row :: row in listing ==> row in table
    ensures IsNextSlice(Listed(PageFrom(table, listing[k..], sort, asOf, limit)), listing, k, limit, sort, asOf)
  {
    hide DistinctIds, RowsById, CursorOf;
    var end := Min(k + limit, |listing|);
    var rows := Take(listing[k..], limit + 1);
    var pageRows := listing[k..end];
    assert Take(rows, limit) == pageRows;
    RowsByIdRestoresThePage(table, pageRows);
    if end > k {
      assert pageRows[|pageRows| - 1] == listing[end - 1];
    }
  }

  lemma ListingComesFromTheTable(table: seq<Row>, user: User, q: Query, asOf: int, like: (string, string) -> bool)
    requires DistinctIds(table)
    ensures forall row :: row in SortedListing(table, user, q.filters, q.sort, asOf, like) ==> row in table
  {
    ListingIsStrict(table, user, q, asOf, like);
  }

  /** One page: the next `limit` rows of the listing, whatever the clock says when it is asked for. */
  lemma PageIsASlice(table: seq<Row>, user: User, q: Query, now: int, like: (string, string) -> bool, asOf: int, listing: seq<Row>, k: nat)
    requires DistinctIds(table) && q.limit >= 1
    requires listing == SortedListing(table, user, q.filters, q.sort, asOf, like)
    requires CursorAfter(listing, k, q.sort, asOf, q.cursor)
    requires k == 0 ==> now == asOf
    ensures IsNextSlice(ListPage(table, user, q, now, like), listing, k, q.limit, q.sort, asOf)
  {
    RestOfTheListing(table, user, q, like, asOf, k);
    ListingComesFromTheTable(table, user, q, asOf, like);
    var page := PageFrom(table, listing[k..], q.sort, asOf, q.limit);
    assert ListPage(table, user, q, now, like) == Listed(page);
    PageFromSlice(table, listing, q.sort, asOf, k, q.limit);
  }

  /** The server as a client sees it: the answer to a cursor given at the k-th request. */
  function Server(table: seq<Row>, user: User, q: Query, clock: nat -> int, like: (string, string) -> bool): (Option<Cursor>, nat) -> PageResult {
    (cursor: Option<Cursor>, k: nat) => ListPage(table, user, q.(cursor := cursor), clock(k), like)
  }

  /** The client: ask again with endCursor until hasNextPage is false, at most `fuel` times. */
  function Follow(ask: (Option<Cursor>, nat) -> PageResult, cursor: Option<Cursor>, k: nat, fuel: nat): seq<Page>
    decreases fuel
  {
    if fuel == 0 then []
    else
      var result := ask(cursor, k);
      if result.InvalidCursor? then []
      else if !result.page.hasNextPage then [result.page]
      else [result.page] + Follow(ask, result.page.endCursor, k + 1, fuel - 1)
  }

  function AllItems(pages: seq<Page>): seq<Row> {
    if pages == [] then [] else pages[0].items + AllItems(pages[1..])
  }

  /** What a chain of pages says, `served` rows of the listing being behind it. */
  ghost predicate ServesTheRest(pages: seq<Page>, listing: seq<Row>, served: nat, limit: nat, asOf: int) {
    && served <= |listing|
    && pages != []
    && !pages[|pages| - 1].hasNextPage
    && AllItems(pages) == listing[served..]
    && (forall i :: 0 <= i < |pages| ==> pages[i].asOf == asOf)
    && (forall i :: 0 <= i < |pages| - 1 ==> |pages[i].items| == limit)
  }

  lemma OneMorePage(page: Page, rest: seq<Page>, listing: seq<Row>, served: nat, end: nat, limit: nat, asOf: int)
    requires served <= end <= |listing| && end - served == limit
    requires page.items == listing[served..end] && page.asOf == asOf
    requires ServesTheRest(rest, listing, end, limit, asOf)
    ensures ServesTheRest([page] + rest, listing, served, limit, asOf)
  {
  }

  lemma LastPage(page: Page, listing: seq<Row>, served: nat, limit: nat, asOf: int)
    requires served <= |listing| && page.items == listing[served..] && page.asOf == asOf && !page.hasNextPage
    ensures ServesTheRest([page], listing, served, limit, asOf)
  {
  }

  lemma {:induction false} FollowFrom(
    ask: (Option<Cursor>, nat) -> PageResult, listing: seq<Row>, limit: nat, sort: SortOption, asOf: int,
    cursor: Option<Cursor>, k: nat, served: nat, fuel: nat)
    requires limit >= 1
    requires forall c: Option<Cursor>, n: nat, done: nat ::
               CursorAfter(listing, done, sort, asOf, c) && (done == 0 ==> n == 0)
               ==> IsNextSlice(ask(c, n), listing, done, limit, sort, asOf)
    requires CursorAfter(listing, served, sort, asOf, cursor) && (served == 0 ==> k == 0)
    requires fuel > |listing| - served
    ensures ServesTheRest(Follow(ask, cursor, k, fuel), listing, served, limit, asOf)
    decreases fuel
  {
    var page := ask(cursor, k).page;
    assert IsNextSlice(ask(cursor, k), listing, served, limit, sort, asOf);
    if page.hasNextPage {
      var end := served + limit;
      FollowFrom(ask, listing, limit, sort, asOf, page.endCursor, k + 1, end, fuel - 1);
      OneMorePage(page, Follow(ask, page.endCursor, k + 1, fuel - 1), listing, served, end, limit, asOf);
    } else {
      LastPage(page, listing, served, limit, asOf);
    }
  }

  /**
    Keyset pagination refines sort-then-slice. On a fixed table, for every sort and every limit of at
    least one, following endCursor ends (the fuel is never the reason to stop) and the pages put
    together are the matching rows in sorted order: none lost, none repeated. Only the clock of the
    first request matters, because the cursor pins it.
   */
  lemma PagesAreTheListing(table: seq<Row>, user: User, q: Query, clock: nat -> int, like: (string, string) -> bool, fuel: nat)
    requires DistinctIds(table) && q.limit >= 1 && q.cursor.None?
    requires fuel > |SortedListing(table, user, q.filters, q.sort, clock(0), like)|
    ensures
      var listing := SortedListing(table, user, q.filters, q.sort, clock(0), like);
      && ServesTheRest(Follow(Server(table, user, q, clock, like), None, 0, fuel), listing, 0, q.limit, clock(0))
      && InOrder(listing, q.sort, clock(0))
      && DistinctIds(listing)
      && (forall row :: row in listing <==> row in table && Matches(user, q.filters, row, like))
  {
    var asOf := clock(0);
    var listing := SortedListing(table, user, q.filters, q.sort, asOf, like);
    var ask := Server(table, user, q, clock, like);
    forall c: Option<Cursor>, n: nat, done: nat | CursorAfter(listing, done, q.sort, asOf, c) && (done == 0 ==> n == 0)
      ensures IsNextSlice(ask(c, n), listing, done, q.limit, q.sort, asOf)
    {
      PageIsASlice(table, user, q.(cursor := c), clock(n), like, asOf, listing, done);
    }
    FollowFrom(ask, listing, q.limit, q.sort, asOf, None, 0, 0, fuel);
    ListingIsStrict(table, user, q, asOf, like);
    SortedIsInOrder(listing, q.sort, asOf);
  }

  /**
    The cursor that a page hands out is refused by a later query, whatever that asks for and whenever,
    exactly when the query sorts differently; otherwise the next page is of the same instant.
   */
  lemma EndCursorCarriesItsSortAndInstant(
      table: seq<Row>, user: User, q: Query, now: int, like: (string, string) -> bool,
      laterTable: seq<Row>, other: User, next: Query, later: int)
    requires ListPage(table, user, q, now, like).Listed?
    requires ListPage(table, user, q, now, like).page.endCursor.Some?
    requires next.cursor == ListPage(table, user, q, now, like).page.endCursor
    ensures ListPage(laterTable, other, next, later, like).InvalidCursor? <==> next.sort != q.sort
    ensures next.sort == q.sort ==>
      ListPage(laterTable, other, next, later, like).page.asOf == ListPage(table, user, q, now, like).page.asOf
  {
  }

  /**
    Why the instant is pinned: read again at a later instant, a running session sorted by ascending
    duration lies beyond the very cursor that was cut behind it, so it would be delivered twice.
   */
  lemma UnpinnedInstantRepeatsRunningSessions(row: Row, asOf: int, later: int)
    requires row.completedAt.None? && row.stoppedAt.None? && Started(row) <= asOf < later
    ensures BeyondCursor(row, CursorOf(row, DURATION_ASC, asOf).(asOf := later))
    ensures !BeyondCursor(row, CursorOf(row, DURATION_ASC, asOf))
  {
  }
}
