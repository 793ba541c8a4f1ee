/** The resource repository (backend/src/models/Resource.ts): the listing
    query with its defaults, WHERE builder, id-window subquery and count, the
    reads by id and by popularity, and the writes (create, patch update, soft
    delete, download counter), which go through the query executor.

    The listing and the reads are given their meaning over a table value:
    filter, sort, then LIMIT/OFFSET, joined with the categories. */
module Resources {
  import opened Wrappers
  import opened Text
  import opened Json
  import opened Sql
  import opened Schema
  import opened Database

  // ---------------------------------------------------------------------
  // Listing parameters.

  datatype SortBy = CreatedAt | DownloadCount | Title
  datatype Direction = Asc | Desc

  function SortColumn(b: SortBy): string {
    match b
    case CreatedAt => "created_at"
    case DownloadCount => "download_count"
    case Title => "title"
  }

  function DirectionText(d: Direction): string {
    match d
    case Asc => "ASC"
    case Desc => "DESC"
  }

  /** `ResourceQuery`: every field may be absent. */
  datatype ResourceQuery = ResourceQuery(
    page: Option<int>,
    limit: Option<int>,
    categoryId: Option<int>,
    search: Option<string>,
    sortBy: Option<SortBy>,
    sortOrder: Option<Direction>,
    status: Option<Status>)

  /** A query with its defaults filled in. */
  datatype Settled = Settled(
    page: int,
    limit: int,
    categoryId: Option<int>,
    search: Option<string>,
    sortBy: SortBy,
    sortOrder: Direction,
    status: Status)

  /** The destructuring defaults of `getResources`. */
  function WithDefaults(q: ResourceQuery): Settled {
    Settled(q.page.GetOr(1), q.limit.GetOr(20), q.categoryId, q.search,
            q.sortBy.GetOr(CreatedAt), q.sortOrder.GetOr(Desc), q.status.GetOr(Active))
  }

  /** Rows skipped before the requested page. */
  function Offset(page: int, limit: int): int {
    (page - 1) * limit
  }

  /** An empty query lists the first 20 active resources, newest first. */
  lemma EmptyQueryDefaults()
    ensures var s := WithDefaults(ResourceQuery(None, None, None, None, None, None, None));
      && s == Settled(1, 20, None, None, CreatedAt, Desc, Active)
      && Offset(s.page, s.limit) == 0
  {
  }

  /** Page k + 1 starts right after the k pages before it, so consecutive
      pages tile the sorted rows. */
  lemma OffsetFollowsPages<T>(rows: seq<T>, limit: nat, k: nat)
    requires limit > 0
    ensures Offset(k + 1, limit) == limit * k
    ensures Window(rows, limit * k, 0) + Window(rows, limit, Offset(k + 1, limit)) == Window(rows, limit * (k + 1), 0)
  {
    PagesTile(rows, limit, k);
  }

  // ---------------------------------------------------------------------
  // The WHERE clause.

  /** JavaScript truthiness of an optional number and an optional string. */
  predicate TruthyId(o: Option<int>) {
    o.Some? && o.value != 0
  }

  predicate TruthyText(o: Option<string>) {
    o.Some? && o.value != ""
  }

  datatype Condition =
    | StatusIs(status: Status)
    | CategoryIs(categoryId: int)
    | TitleOrDescriptionLike(pattern: string)

  /** The conditions of a listing, in the order the clause is built. */
  function Conditions(s: Settled): seq<Condition> {
    [StatusIs(s.status)]
    + (if TruthyId(s.categoryId) then [CategoryIs(s.categoryId.value)] else [])
    + (if TruthyText(s.search) then [TitleOrDescriptionLike("%" + s.search.value + "%")] else [])
  }

  const StatusTest: string := "r.status = " + "?"
  const CategoryTest: string := "r.category_id = " + "?"
  const SearchTest: string := "(r.title LIKE " + "?" + " OR r.description LIKE " + "?" + ")"

  /** The SQL text of one condition. */
  function Render(c: Condition): string {
    match c
    case StatusIs(_) => StatusTest
    case CategoryIs(_) => CategoryTest
    case TitleOrDescriptionLike(_) => SearchTest
  }

  function Bound(c: Condition): seq<Scalar> {
    match c
    case StatusIs(st) => [Str(StatusText(st))]
    case CategoryIs(n) => [Num(n)]
    case TitleOrDescriptionLike(p) => [Str(p), Str(p)]
  }

  /** `WHERE <first>`, then ` AND <condition>` for each further one. */
  function WhereSql(cs: seq<Condition>): string
    requires cs != []
  {
    if |cs| == 1 then "WHERE " + Render(cs[0])
    else WhereSql(cs[..|cs| - 1]) + " AND " + Render(cs[|cs| - 1])
  }

  function WhereParams(cs: seq<Condition>): seq<Scalar> {
    if cs == [] then [] else WhereParams(cs[..|cs| - 1]) + Bound(cs[|cs| - 1])
  }

  /** Adding a condition extends the clause by ` AND <condition>` and the
      values by the ones it binds. */
  lemma WhereSnoc(cs: seq<Condition>, c: Condition)
    requires cs != []
    ensures WhereSql(cs + [c]) == WhereSql(cs) + " AND " + Render(c)
    ensures WhereParams(cs + [c]) == WhereParams(cs) + Bound(c)
  {
    assert (cs + [c])[..|cs|] == cs;
  }

  lemma WhereSingle(c: Condition)
    ensures WhereSql([c]) == "WHERE " + Render(c)
    ensures WhereParams([c]) == Bound(c)
  {
    assert [c][..0] == [];
  }

  /** Builds `whereClause` and `queryParams` step by step: status always,
      then the category when it is truthy, then the search when it is
      non-empty. */
  method BuildWhere(s: Settled) returns (clause: string, params: seq<Scalar>)
    ensures clause == WhereSql(Conditions(s))
    ensures params == WhereParams(Conditions(s))
  {
    clause := "WHERE " + StatusTest;
    params := [Str(StatusText(s.status))];
    ghost var cs := [StatusIs(s.status)];
    WhereSingle(StatusIs(s.status));
    if s.categoryId.Some? && s.categoryId.value != 0 {
      clause := clause + " AND " + CategoryTest;
      params := params + [Num(s.categoryId.value)];
      WhereSnoc(cs, CategoryIs(s.categoryId.value));
      cs := cs + [CategoryIs(s.categoryId.value)];
    }
    if s.search.Some? && s.search.value != "" {
      clause := clause + " AND " + SearchTest;
      var term := "%" + s.search.value + "%";
      params := params + [Str(term), Str(term)];
      WhereSnoc(cs, TitleOrDescriptionLike(term));
      cs := cs + [TitleOrDescriptionLike(term)];
    }
    assert cs == Conditions(s);
  }

  /** Any clause has exactly one placeholder per bound value. */
  lemma {:induction false} WherePlaceholders(cs: seq<Condition>)
    requires cs != []
    ensures Placeholders(WhereSql(cs)) == |WhereParams(cs)|
    decreases |cs|
  {
    var init, last := cs[..|cs| - 1], cs[|cs| - 1];
    RenderPlaceholders(last);
    AndLacksPlaceholders();
    assert WhereParams(cs) == WhereParams(init) + Bound(last);
    if |cs| == 1 {
      assert init == [];
      PlaceholdersAppend("WHERE ", Render(last));
    } else {
      WherePlaceholders(init);
      PlaceholdersAppend(WhereSql(init), " AND ");
      PlaceholdersAppend(WhereSql(init) + " AND ", Render(last));
    }
  }

  lemma AndLacksPlaceholders()
    ensures Placeholders(" AND ") == 0 && Placeholders("WHERE ") == 0
  {
    PlaceholdersNone(" AND ");
    PlaceholdersNone("WHERE ");
  }

  /** One placeholder after a text without any. */
  lemma PlaceholderAfter(a: string)
    requires '?' !in a
    ensures Placeholders(a + "?") == 1
  {
    PlaceholderOne();
    PlaceholdersNone(a);
    PlaceholdersAppend(a, "?");
  }

  lemma RenderPlaceholders(c: Condition)
    ensures Placeholders(Render(c)) == |Bound(c)|
  {
    match c
    case StatusIs(_) =>
      PlaceholderAfter("r.status = ");
    case CategoryIs(_) =>
      PlaceholderAfter("r.category_id = ");
    case TitleOrDescriptionLike(_) =>
      SearchPlaceholders();
  }

  lemma SearchPlaceholders()
    ensures Placeholders(SearchTest) == 2
  {
    var a, b, c := "(r.title LIKE ", " OR r.description LIKE ", ")";
    PlaceholderAfter(a);
    PlaceholdersNone(b);
    PlaceholdersNone(c);
    PlaceholdersAppend(a + "?", b);
    PlaceholderOne();
    PlaceholdersAppend(a + "?" + b, "?");
    PlaceholdersAppend(a + "?" + b + "?", c);
  }

  /** The WHERE clause has exactly one placeholder per bound value; status
      is constrained first; the category adds its id only when truthy (so 0
      adds nothing); a search adds exactly two `%search%` values. */
  lemma WhereShape(s: Settled)
    ensures Placeholders(WhereSql(Conditions(s))) == |WhereParams(Conditions(s))|
    ensures WhereParams(Conditions(s)) ==
      [Str(StatusText(s.status))]
      + (if TruthyId(s.categoryId) then [Num(s.categoryId.value)] else [])
      + (if TruthyText(s.search) then [Str("%" + s.search.value + "%"), Str("%" + s.search.value + "%")] else [])
    ensures StartsWith(WhereSql(Conditions(s)), "WHERE " + StatusTest)
  {
    var cs := Conditions(s);
    WherePlaceholders(cs);
    WhereStart(cs);
    var first := [StatusIs(s.status)];
    WhereSingle(StatusIs(s.status));
    var mid := first + (if TruthyId(s.categoryId) then [CategoryIs(s.categoryId.value)] else []);
    if TruthyId(s.categoryId) {
      WhereSnoc(first, CategoryIs(s.categoryId.value));
    } else {
      assert mid == first;
    }
    if TruthyText(s.search) {
      WhereSnoc(mid, TitleOrDescriptionLike("%" + s.search.value + "%"));
    } else {
      assert cs == mid;
    }
  }

  /** The clause opens with its first condition. */
  lemma {:induction false} WhereStart(cs: seq<Condition>)
    requires cs != []
    ensures StartsWith(WhereSql(cs), "WHERE " + Render(cs[0]))
    decreases |cs|
  {
    if |cs| > 1 {
      var init := cs[..|cs| - 1];
      WhereStart(init);
      assert init[0] == cs[0];
      PrefixGrow("WHERE " + Render(cs[0]), WhereSql(init), " AND " + Render(cs[|cs| - 1]));
      AppendAssoc(WhereSql(init), " AND ", Render(cs[|cs| - 1]));
    }
  }

  // ---------------------------------------------------------------------
  // The statements of a listing.

  const Table: string := "resources"

  lemma TableIsWord()
    ensures IsWord(Table)
  {
  }

  /** The selected columns, the same for the listing, the read by id and
      the popular read. */
  const Columns: string :=
    ColumnsOfResource + ColumnsOfCategory

  const ColumnsOfResource: string :=
    "SELECT r.id, r.title, r.description, " + "r.category_id, r.file_type, r.file_size, "
    + "r.download_url, r.download_password, " + "r.thumbnail_url, r.download_count, "
    + "r.tags, r.status, r.created_at, " + "r.updated_at, "

  const ColumnsOfCategory: string :=
    "c.name as category_name, " + "c.icon as category_icon"

  /** The text `.replace` is asked to remove from the WHERE clause. */
  const CategoryJoin: string := "LEFT JOIN categories c ON " + "r.category_id = c.id"

  function OrderClause(col: SortBy, dir: Direction): string {
    " ORDER BY r." + SortColumn(col) + " " + DirectionText(dir)
  }

  /** The id subquery up to its WHERE clause. */
  function ListHead(): string {
    Columns + " FROM (SELECT id FROM " + Table + " r "
  }

  /** After the window: the ids joined back to their rows and categories. */
  function ListTail(): string {
    ") AS filtered_ids JOIN " + Table + " r ON r.id = filtered_ids.id " + CategoryJoin
  }

  /** The list statement: ids of the window of matching rows, joined back to
      their rows and categories, in the requested order. */
  function ListSql(where: string, col: SortBy, dir: Direction): string {
    ListHead() + where + OrderClause(col, dir) + WindowText + ListTail() + OrderClause(col, dir)
  }

  /** The window of the id subquery: its size, then how many rows it skips. */
  const WindowText: string := " LIMIT " + "?" + " OFFSET " + "?"

  function CountSql(where: string): string {
    "SELECT COUNT(*) as total FROM " + Table + " r " + ReplaceFirst(where, CategoryJoin, "")
  }

  function ListStatement(s: Settled): Statement {
    var cs := Conditions(s);
    Statement(ListSql(WhereSql(cs), s.sortBy, s.sortOrder), WhereParams(cs) + [Num(s.limit), Num(Offset(s.page, s.limit))])
  }

  function CountStatement(s: Settled): Statement {
    var cs := Conditions(s);
    Statement(CountSql(WhereSql(cs)), WhereParams(cs))
  }

  lemma RenderLacksJ(c: Condition)
    ensures 'J' !in Render(c)
  {
    match c
    case StatusIs(_) =>
      assert 'J' !in "r.status = " + "?";
    case CategoryIs(_) =>
      assert 'J' !in "r.category_id = " + "?";
    case TitleOrDescriptionLike(_) =>
      assert 'J' !in "(r.title LIKE " && 'J' !in " OR r.description LIKE ";
  }

  lemma {:induction false} WhereLacksJ(cs: seq<Condition>)
    requires cs != []
    ensures 'J' !in WhereSql(cs)
    decreases |cs|
  {
    RenderLacksJ(cs[|cs| - 1]);
    ConnectivesLackJ();
    if |cs| > 1 {
      WhereLacksJ(cs[..|cs| - 1]);
    }
  }

  lemma ConnectivesLackJ()
    ensures 'J' !in "WHERE " && 'J' !in " AND "
  {
  }

  /** The count statement constrains exactly what the listing does: the
      WHERE clause never holds the join text, so the `.replace` removes
      nothing. */
  lemma CountMatchesListing(s: Settled)
    ensures CountStatement(s).sql == "SELECT COUNT(*) as total FROM " + Table + " r " + WhereSql(Conditions(s))
    ensures CountStatement(s).params == ListStatement(s).params[..|ListStatement(s).params| - 2]
  {
    var cs := Conditions(s);
    WhereLacksJ(cs);
    assert CategoryJoin[5] == 'J';
    MissingCharNotContained(WhereSql(cs), CategoryJoin, 'J');
    ReplaceAbsent(WhereSql(cs), CategoryJoin, "");
  }

  lemma ColumnsLack1()
    ensures '?' !in "SELECT r.id, r.title, r.description, "
  {
  }

  lemma ColumnsLack2()
    ensures '?' !in "r.category_id, r.file_type, r.file_size, "
  {
  }

  lemma ColumnsLack3()
    ensures '?' !in "r.download_url, r.download_password, "
  {
  }

  lemma ColumnsLack4()
    ensures '?' !in "r.thumbnail_url, r.download_count, "
  {
  }

  lemma ColumnsLack5()
    ensures '?' !in "r.tags, r.status, r.created_at, "
  {
  }

  lemma ColumnsLack6()
    ensures '?' !in "r.updated_at, "
  {
  }

  lemma ColumnsLack7()
    ensures '?' !in "c.name as category_name, "
  {
  }

  lemma ColumnsLack8()
    ensures '?' !in "c.icon as category_icon"
  {
  }

  lemma ColumnsLackPlaceholders()
    ensures '?' !in Columns
  {
    ColumnsLack1();
    ColumnsLack2();
    ColumnsLack3();
    ColumnsLack4();
    ColumnsLack5();
    ColumnsLack6();
    ColumnsLack7();
    ColumnsLack8();
  }

  lemma ListHeadLacksPlaceholders()
    ensures Placeholders(ListHead()) == 0
  {
    ColumnsLackPlaceholders();
    assert '?' !in " FROM (SELECT id FROM ";
    assert '?' !in " r ";
    PlaceholdersNone(ListHead());
  }

  lemma ListTailLacksPlaceholders()
    ensures Placeholders(ListTail()) == 0
  {
    JoinBackLacksPlaceholders();
    CategoryJoinLacksPlaceholders();
    PlaceholdersNone(ListTail());
  }

  lemma JoinBackLacksPlaceholders()
    ensures '?' !in ") AS filtered_ids JOIN " && '?' !in " r ON r.id = filtered_ids.id "
  {
  }

  lemma CategoryJoinLacksPlaceholders()
    ensures '?' !in CategoryJoin
  {
    assert '?' !in "LEFT JOIN categories c ON ";
    assert '?' !in "r.category_id = c.id";
  }

  lemma OrderLacksPlaceholders(col: SortBy, dir: Direction)
    ensures Placeholders(OrderClause(col, dir)) == 0
  {
    assert '?' !in " ORDER BY r.";
    assert '?' !in SortColumn(col) by {
      match col
      case CreatedAt => assert '?' !in "created_at";
      case DownloadCount => assert '?' !in "download_count";
      case Title => assert '?' !in "title";
    }
    assert '?' !in DirectionText(dir) by {
      match dir
      case Asc => assert '?' !in "ASC";
      case Desc => assert '?' !in "DESC";
    }
    PlaceholdersNone(OrderClause(col, dir));
  }

  lemma WindowPlaceholders()
    ensures Placeholders(WindowText) == 2
  {
    var a, b := " LIMIT ", " OFFSET ";
    PlaceholderAfter(a);
    PlaceholdersNone(b);
    PlaceholdersAppend(a + "?", b);
    PlaceholderOne();
    PlaceholdersAppend(a + "?" + b, "?");
  }

  /** The list statement binds the WHERE values, then LIMIT, then OFFSET,
      one value per placeholder. */
  lemma ListPlaceholders(s: Settled)
    ensures Placeholders(ListStatement(s).sql) == |ListStatement(s).params|
  {
    var w := WhereSql(Conditions(s));
    var o := OrderClause(s.sortBy, s.sortOrder);
    WhereShape(s);
    ListHeadLacksPlaceholders();
    ListTailLacksPlaceholders();
    OrderLacksPlaceholders(s.sortBy, s.sortOrder);
    WindowPlaceholders();
    PlaceholdersAppend(ListHead(), w);
    PlaceholdersAppend(ListHead() + w, o);
    PlaceholdersAppend(ListHead() + w + o, WindowText);
    PlaceholdersAppend(ListHead() + w + o + WindowText, ListTail());
    PlaceholdersAppend(ListHead() + w + o + WindowText + ListTail(), o);
  }

  // ---------------------------------------------------------------------
  // The meaning of a listing over a table.

  /** What one condition demands of a row; a NULL description matches no pattern. */
  predicate Holds(c: Condition, r: Resource) {
    match c
    case StatusIs(st) => r.status == st
    case CategoryIs(n) => r.categoryId == Some(n)
    case TitleOrDescriptionLike(p) => Like(p, r.title) || (r.description.Some? && Like(p, r.description.value))
  }

  predicate Matches(cs: seq<Condition>, r: Resource) {
    forall i :: 0 <= i < |cs| ==> Holds(cs[i], r)
  }

  /** The matching rows, in table order. */
  function Select(table: seq<Resource>, cs: seq<Condition>): (r: seq<Resource>)
    ensures |r| <= |table|
    ensures forall x :: x in r <==> x in table && Matches(cs, x)
  {
    if table == [] then []
    else Select(table[..|table| - 1], cs) + (if Matches(cs, table[|table| - 1]) then [table[|table| - 1]] else [])
  }

  /** A row is listed exactly when it has the requested status, the
      requested category when one is given (0 counts as none), and, when a
      search term without LIKE wildcards is given, a title or description
      containing it, ignoring ASCII case. */
  lemma MatchesMeaning(s: Settled, r: Resource)
    requires TruthyText(s.search) ==> NoWildcards(s.search.value)
    ensures Matches(Conditions(s), r) <==>
      && r.status == s.status
      && (TruthyId(s.categoryId) ==> r.categoryId == s.categoryId)
      && (TruthyText(s.search) ==>
            Contains(Lower(r.title), Lower(s.search.value))
            || (r.description.Some? && Contains(Lower(r.description.value), Lower(s.search.value))))
  {
    var cs := Conditions(s);
    if TruthyText(s.search) {
      var q := s.search.value;
      LikeContains(q, r.title);
      if r.description.Some? {
        LikeContains(q, r.description.value);
      }
      assert cs[|cs| - 1] == TitleOrDescriptionLike("%" + q + "%");
    }
    if TruthyId(s.categoryId) {
      assert cs[1] == CategoryIs(s.categoryId.value);
    }
    assert cs[0] == StatusIs(s.status);
  }

  /** A sort key: SQLite compares integers numerically and text by code point. */
  function CompareText(a: string, b: string): int {
    if a == [] && b == [] then 0
    else if a == [] then -1
    else if b == [] then 1
    else if a[0] < b[0] then -1
    else if a[0] > b[0] then 1
    else CompareText(a[1..], b[1..])
  }

  function CompareInt(a: int, b: int): int {
    if a < b then -1 else if a > b then 1 else 0
  }

  function Compare(a: Resource, b: Resource, col: SortBy): int {
    match col
    case CreatedAt => CompareText(a.createdAt, b.createdAt)
    case DownloadCount => CompareInt(a.downloadCount, b.downloadCount)
    case Title => CompareText(a.title, b.title)
  }

  lemma {:induction false} CompareTextAntisymmetric(a: string, b: string)
    ensures CompareText(a, b) == -CompareText(b, a)
    decreases |a|
  {
    if a != [] && b != [] && a[0] == b[0] {
      CompareTextAntisymmetric(a[1..], b[1..]);
    }
  }

  /** An ORDER BY list: columns with directions, most significant first. */
  type Order = seq<(SortBy, Direction)>

  /** `a` may come before `b` under `order`. */
  predicate Precedes(a: Resource, b: Resource, order: Order)
    decreases |order|
  {
    if order == [] then true
    else
      var c := Compare(a, b, order[0].0);
      var d := if order[0].1 == Asc then c else -c;
      d < 0 || (d == 0 && Precedes(a, b, order[1..]))
  }

  lemma {:induction false} PrecedesTotal(a: Resource, b: Resource, order: Order)
    ensures Precedes(a, b, order) || Precedes(b, a, order)
    decreases |order|
  {
    if order != [] {
      PrecedesTotal(a, b, order[1..]);
      match order[0].0 {
        case CreatedAt => CompareTextAntisymmetric(a.createdAt, b.createdAt);
        case Title => CompareTextAntisymmetric(a.title, b.title);
        case DownloadCount =>
      }
    }
  }

  predicate SortedBy(rows: seq<Resource>, order: Order) {
    forall i :: 0 <= i < |rows| - 1 ==> Precedes(rows[i], rows[i + 1], order)
  }

  /** Inserts `x` before the first row it may precede. */
  function Insert(x: Resource, rows: seq<Resource>, order: Order): (r: seq<Resource>)
    ensures multiset(r) == multiset(rows) + multiset{x}
    ensures |r| == |rows| + 1
  {
    if rows == [] || Precedes(x, rows[0], order) then [x] + rows
    else
      assert rows == [rows[0]] + rows[1..];
      [rows[0]] + Insert(x, rows[1..], order)
  }

  lemma {:induction false} InsertSorted(x: Resource, rows: seq<Resource>, order: Order)
    requires SortedBy(rows, order)
    ensures SortedBy(Insert(x, rows, order), order)
    ensures rows != [] ==> Insert(x, rows, order)[0] == x || Insert(x, rows, order)[0] == rows[0]
    decreases |rows|
  {
    if rows == [] || Precedes(x, rows[0], order) {
    } else {
      PrecedesTotal(x, rows[0], order);
      InsertSorted(x, rows[1..], order);
      var r := Insert(x, rows, order);
      assert r == [rows[0]] + Insert(x, rows[1..], order);
      forall i | 0 <= i < |r| - 1 ensures Precedes(r[i], r[i + 1], order) {
        if i > 0 {
          assert r[i] == Insert(x, rows[1..], order)[i - 1];
        }
      }
    }
  }

  /** ORDER BY: insertion sort; rows that tie keep their table order. */
  function SortRows(rows: seq<Resource>, order: Order): (r: seq<Resource>)
    ensures multiset(r) == multiset(rows) && |r| == |rows|
  {
    if rows == [] then []
    else
      assert rows == [rows[0]] + rows[1..];
      Insert(rows[0], SortRows(rows[1..], order), order)
  }

  lemma {:induction false} SortRowsSorted(rows: seq<Resource>, order: Order)
    ensures SortedBy(SortRows(rows, order), order)
    decreases |rows|
  {
    if rows != [] {
      SortRowsSorted(rows[1..], order);
      InsertSorted(rows[0], SortRows(rows[1..], order), order);
    }
  }

  /** Sorting rows that are already in order changes nothing: the outer
      ORDER BY of the list statement keeps the window as it is. */
  lemma {:induction false} SortSortedIsIdentity(rows: seq<Resource>, order: Order)
    requires SortedBy(rows, order)
    ensures SortRows(rows, order) == rows
    decreases |rows|
  {
    if rows != [] {
      SortSortedIsIdentity(rows[1..], order);
      assert [rows[0]] + rows[1..] == rows;
    }
  }

  lemma WindowSorted(rows: seq<Resource>, order: Order, limit: int, offset: int)
    requires SortedBy(rows, order)
    ensures SortedBy(Window(rows, limit, offset), order)
  {
    var w := Window(rows, limit, offset);
    var o := if offset < 0 then 0 else if offset > |rows| then |rows| else offset;
    forall i | 0 <= i < |w| - 1 ensures Precedes(w[i], w[i + 1], order) {
      assert w[i] == rows[o + i] && w[i + 1] == rows[o + i + 1];
    }
  }

  /** A resource as the listing returns it: the row, the document its tags
      text parses to, and the name and icon of its category (absent when
      none matches). */
  datatype Listed = Listed(row: Resource, tags: Value, categoryName: Option<string>, categoryIcon: Option<string>)

  datatype Listing = Listing(resources: seq<Listed>, total: int)

  /** `tags ? JSON.parse(tags) : []`: NULL and the empty text decode to an
      empty list; any other text to whatever document it holds. */
  function DecodeRowTags(tags: Option<string>): Result<Value> {
    if tags.None? || tags.value == "" then Ok(List([])) else ParseValue(tags.value)
  }

  /** The category a resource row joins with: the first with its id. */
  function CategoryOf(categories: seq<Category>, id: Option<int>): (r: Option<Category>)
    ensures r.Some? ==> r.value in categories && id == Some(r.value.id)
    ensures r.None? ==> id.None? || forall c :: c in categories ==> c.id != id.value
  {
    if id.None? || categories == [] then None
    else if categories[0].id == id.value then Some(categories[0])
    else CategoryOf(categories[1..], id)
  }

  /** `l` is row `x` as the listing returns it: its tags text decoded and
      the name and icon of the category it joins with, none without one. */
  predicate DecoratedAs(l: Listed, x: Resource, categories: seq<Category>) {
    var c := CategoryOf(categories, x.categoryId);
    && DecodeRowTags(x.tags).Ok?
    && l.row == x
    && l.tags == DecodeRowTags(x.tags).value
    && l.categoryName == (if c.Some? then Some(c.value.name) else None)
    && l.categoryIcon == (if c.Some? then c.value.icon else None)
  }

  /** One row of the listing: fails iff its tags text does not parse. */
  function Decorate(r: Resource, categories: seq<Category>): (d: Result<Listed>)
    ensures d.Ok? <==> DecodeRowTags(r.tags).Ok?
    ensures d.Ok? ==> DecoratedAs(d.value, r, categories)
  {
    var tags := DecodeRowTags(r.tags);
    if tags.Err? then Err(tags.msg)
    else
      var c := CategoryOf(categories, r.categoryId);
      Ok(Listed(r, tags.value,
                if c.Some? then Some(c.value.name) else None,
                if c.Some? then c.value.icon else None))
  }

  /** Decorates every row; the first tag text that does not parse fails the whole read. */
  function DecorateAll(rows: seq<Resource>, categories: seq<Category>): (r: Result<seq<Listed>>)
    ensures r.Ok? ==> |r.value| == |rows| && forall i :: 0 <= i < |rows| ==> r.value[i].row == rows[i]
    ensures r.Ok? <==> forall i :: 0 <= i < |rows| ==> DecodeRowTags(rows[i].tags).Ok?
    ensures r.Ok? ==> forall i :: 0 <= i < |rows| ==> DecoratedAs(r.value[i], rows[i], categories)
  {
    if rows == [] then Ok([])
    else
      var head := Decorate(rows[0], categories);
      var rest := DecorateAll(rows[1..], categories);
      if head.Err? then Err(head.msg)
      else if rest.Err? then Err(rest.msg)
      else
        assert forall i :: 1 <= i < |rows| ==> rows[i] == rows[1..][i - 1];
        Ok([head.value] + rest.value)
  }

  /** getResources over a table: the matching rows sorted, windowed and
      decorated, and the number of matching rows. */
  function GetResources(table: seq<Resource>, categories: seq<Category>, q: ResourceQuery): Result<Listing> {
    var s := WithDefaults(q);
    var matching := Select(table, Conditions(s));
    var order := [(s.sortBy, s.sortOrder)];
    var ids := Window(SortRows(matching, order), s.limit, Offset(s.page, s.limit));
    var listed := DecorateAll(SortRows(ids, order), categories);
    if listed.Err? then Err(listed.msg) else Ok(Listing(listed.value, |matching|))
  }

  /** The listing is the requested window of the sorted matching rows, and
      its total counts all matching rows, whatever the window. */
  lemma ListingIsWindow(table: seq<Resource>, categories: seq<Category>, q: ResourceQuery)
    requires GetResources(table, categories, q).Ok?
    ensures var s := WithDefaults(q);
      var matching := Select(table, Conditions(s));
      var sorted := SortRows(matching, [(s.sortBy, s.sortOrder)]);
      var l := GetResources(table, categories, q).value;
      && l.total == |matching|
      && |l.resources| == |Window(sorted, s.limit, Offset(s.page, s.limit))|
      && (forall i :: 0 <= i < |l.resources| ==> l.resources[i].row == Window(sorted, s.limit, Offset(s.page, s.limit))[i])
      && (forall i :: 0 <= i < |l.resources| ==> DecoratedAs(l.resources[i], Window(sorted, s.limit, Offset(s.page, s.limit))[i], categories))
      && SortedBy(Window(sorted, s.limit, Offset(s.page, s.limit)), [(s.sortBy, s.sortOrder)])
  {
    var s := WithDefaults(q);
    var order := [(s.sortBy, s.sortOrder)];
    var sorted := SortRows(Select(table, Conditions(s)), order);
    SortRowsSorted(Select(table, Conditions(s)), order);
    WindowSorted(sorted, order, s.limit, Offset(s.page, s.limit));
    SortSortedIsIdentity(Window(sorted, s.limit, Offset(s.page, s.limit)), order);
  }

  /** 25 matching rows, 10 per page: page 3 holds the last 5 and the total is 25. */
  lemma ThirdPageOfTwentyFive(table: seq<Resource>, categories: seq<Category>, q: ResourceQuery)
    requires q.page == Some(3) && q.limit == Some(10)
    requires |Select(table, Conditions(WithDefaults(q)))| == 25
    requires GetResources(table, categories, q).Ok?
    ensures |GetResources(table, categories, q).value.resources| == 5
    ensures GetResources(table, categories, q).value.total == 25
  {
    ListingIsWindow(table, categories, q);
  }

  // ---------------------------------------------------------------------
  // Reads by id and by popularity.

  /** getResourceById: the first active row with the id, decorated; none
      when there is no active row with it. */
  function GetResourceById(table: seq<Resource>, categories: seq<Category>, id: int): (r: Result<Option<Listed>>)
    ensures r.Ok? && r.value.Some? ==> r.value.value.row in table && r.value.value.row.id == id && r.value.value.row.status == Active
    ensures r.Ok? && r.value.Some? ==> DecoratedAs(r.value.value, r.value.value.row, categories)
    ensures r == Ok(None) <==> forall x :: x in table ==> x.id != id || x.status != Active
  {
    var hit := FirstActiveWithId(table, id);
    if hit.None? then Ok(None)
    else
      var d := Decorate(hit.value, categories);
      if d.Err? then Err(d.msg) else Ok(Some(d.value))
  }

  /** `WHERE r.id = ? AND r.status = 'active'`, first row in table order. */
  function FirstActiveWithId(rows: seq<Resource>, id: int): (r: Option<Resource>)
    ensures r.Some? ==> r.value in rows && r.value.id == id && r.value.status == Active
    ensures r.None? <==> forall x :: x in rows ==> x.id != id || x.status != Active
  {
    if rows == [] then None
    else if rows[0].id == id && rows[0].status == Active then Some(rows[0])
    else
      var r := FirstActiveWithId(rows[1..], id);
      assert forall x :: x in rows ==> x == rows[0] || x in rows[1..];
      r
  }

  /** The order of getPopularResources: most downloaded first, newest first among ties. */
  const PopularOrder: Order := [(DownloadCount, Desc), (CreatedAt, Desc)]

  /** getPopularResources over a table. */
  function GetPopularResources(table: seq<Resource>, categories: seq<Category>, limit: int): Result<seq<Listed>> {
    DecorateAll(Window(SortRows(Select(table, [StatusIs(Active)]), PopularOrder), limit, 0), categories)
  }

  /** Under the popular order, a row never precedes one downloaded more often. */
  lemma PopularPrecedes(a: Resource, b: Resource)
    requires Precedes(a, b, PopularOrder)
    ensures a.downloadCount >= b.downloadCount
  {
  }

  /** Rows sorted most downloaded first: download counts never rise along the list. */
  lemma {:induction false} PopularCountsFall(rows: seq<Resource>, i: nat, j: nat)
    requires SortedBy(rows, PopularOrder) && i <= j < |rows|
    ensures rows[i].downloadCount >= rows[j].downloadCount
    decreases j - i
  {
    if i < j {
      PopularPrecedes(rows[i], rows[i + 1]);
      PopularCountsFall(rows, i + 1, j);
    }
  }

  /** The rows sorted for the popular listing are exactly the active ones. */
  lemma ActiveSorted(table: seq<Resource>)
    ensures var active := Select(table, [StatusIs(Active)]);
      var sorted := SortRows(active, PopularOrder);
      && multiset(sorted) == multiset(active)
      && SortedBy(sorted, PopularOrder)
      && forall x :: x in sorted <==> x in table && x.status == Active
  {
    var active := Select(table, [StatusIs(Active)]);
    var sorted := SortRows(active, PopularOrder);
    SortRowsSorted(active, PopularOrder);
    forall x ensures x in sorted <==> x in table && x.status == Active {
      assert x in sorted <==> x in multiset(sorted);
      assert x in active <==> x in multiset(active);
      assert Matches([StatusIs(Active)], x) <==> Holds([StatusIs(Active)][0], x);
    }
  }

  /** A listing that takes the head of rows sorted most downloaded first
      leaves out nothing downloaded more often than what it shows. */
  lemma {:induction false} TopOfPopular(sorted: seq<Resource>, p: seq<Listed>)
    requires SortedBy(sorted, PopularOrder) && |p| <= |sorted|
    requires forall i :: 0 <= i < |p| ==> p[i].row == sorted[i]
    ensures forall i, j :: 0 <= i <= j < |p| ==> p[i].row.downloadCount >= p[j].row.downloadCount
    ensures p != [] ==> forall j :: |p| <= j < |sorted| ==> sorted[j].downloadCount <= p[|p| - 1].row.downloadCount
  {
    forall i, j | 0 <= i <= j < |p| ensures p[i].row.downloadCount >= p[j].row.downloadCount {
      PopularCountsFall(sorted, i, j);
    }
    if p != [] {
      forall j | |p| <= j < |sorted| ensures sorted[j].downloadCount <= p[|p| - 1].row.downloadCount {
        PopularCountsFall(sorted, |p| - 1, j);
      }
    }
  }

  /** getPopularResources lists the first `limit` active resources (all of
      them when there are fewer) in the popular order: every one listed is
      active, the counts never rise down the list, and no active resource
      left out is downloaded more often than the last one listed. */
  lemma PopularAreMostDownloaded(table: seq<Resource>, categories: seq<Category>, limit: nat)
    requires GetPopularResources(table, categories, limit).Ok?
    ensures var active := Select(table, [StatusIs(Active)]);
      var sorted := SortRows(active, PopularOrder);
      var p := GetPopularResources(table, categories, limit).value;
      && multiset(sorted) == multiset(active)
      && (forall x :: x in sorted <==> x in table && x.status == Active)
      && |p| == (if limit < |sorted| then limit else |sorted|)
      && (forall i :: 0 <= i < |p| ==> p[i].row == sorted[i] && p[i].row.status == Active)
      && (forall i, j :: 0 <= i <= j < |p| ==> p[i].row.downloadCount >= p[j].row.downloadCount)
      && (p != [] ==> forall j :: |p| <= j < |sorted| ==> sorted[j].downloadCount <= p[|p| - 1].row.downloadCount)
  {
    var active := Select(table, [StatusIs(Active)]);
    var sorted := SortRows(active, PopularOrder);
    ActiveSorted(table);
    var w := Window(sorted, limit, 0);
    var d := DecorateAll(w, categories);
    assert d == GetPopularResources(table, categories, limit);
    var p := d.value;
    assert |p| == |w| == (if limit < |sorted| then limit else |sorted|);
    forall i | 0 <= i < |p| ensures p[i].row == sorted[i] && p[i].row.status == Active {
      assert p[i].row == w[i] == sorted[i];
      assert sorted[i] in sorted;
    }
    TopOfPopular(sorted, p);
  }

  // ---------------------------------------------------------------------
  // The reads as issued through the cache.

  /** The read by id: the selected columns of the active row with the id. */
  const ByIdSql: string :=
    Columns + " FROM " + Table + " r " + CategoryJoin + " WHERE r.id = ? AND r.status = 'active'"

  /** The popular read: active rows, most downloaded first, newest first
      among ties, at most `?` of them. */
  const PopularSql: string :=
    Columns + " FROM " + Table + " r " + CategoryJoin + " WHERE r.status = 'active'"
    + " ORDER BY r.download_count DESC, r.created_at DESC" + " LIMIT ?"

  /** getPopularResources' `limit` when the caller gives none. */
  const PopularDefault: int := 10

  /** Every statement selecting the resource columns starts the same way. */
  lemma ColumnsStart()
    ensures StartsWith(Columns, "SELECT r.id")
  {
    var p := "SELECT r.id";
    var a := "SELECT r.id, r.title, r.description, ";
    assert a[..|p|] == p;
    PrefixGrow(p, a, "r.category_id, r.file_type, r.file_size, ");
    var b := a + "r.category_id, r.file_type, r.file_size, ";
    PrefixGrow(p, b, "r.download_url, r.download_password, ");
    var c := b + "r.download_url, r.download_password, ";
    PrefixGrow(p, c, "r.thumbnail_url, r.download_count, ");
    var d := c + "r.thumbnail_url, r.download_count, ";
    PrefixGrow(p, d, "r.tags, r.status, r.created_at, ");
    var e := d + "r.tags, r.status, r.created_at, ";
    PrefixGrow(p, e, "r.updated_at, ");
    PrefixGrow(p, ColumnsOfResource, ColumnsOfCategory);
  }

  /** The listing statement starts with the resource columns. */
  lemma ListSqlStart(where: string, col: SortBy, dir: Direction)
    ensures StartsWith(ListSql(where, col, dir), "SELECT r.id")
  {
    var p := "SELECT r.id";
    var o := OrderClause(col, dir);
    ColumnsStart();
    PrefixGrow(p, Columns, " FROM (SELECT id FROM ");
    PrefixGrow(p, Columns + " FROM (SELECT id FROM ", Table);
    PrefixGrow(p, Columns + " FROM (SELECT id FROM " + Table, " r ");
    PrefixGrow(p, ListHead(), where);
    PrefixGrow(p, ListHead() + where, o);
    PrefixGrow(p, ListHead() + where + o, WindowText);
    PrefixGrow(p, ListHead() + where + o + WindowText, ListTail());
    PrefixGrow(p, ListHead() + where + o + WindowText + ListTail(), o);
  }

  /** The count statement starts with `SELECT COUNT`. */
  lemma CountSqlStart(where: string)
    ensures StartsWith(CountSql(where), "SELECT C")
  {
    var p := "SELECT C";
    var a := "SELECT COUNT(*) as total FROM ";
    assert a[..|p|] == p;
    PrefixGrow(p, a, Table);
    PrefixGrow(p, a + Table, " r ");
    PrefixGrow(p, a + Table + " r ", ReplaceFirst(where, CategoryJoin, ""));
  }

  /** The read by id and the popular read start with the resource columns. */
  lemma SingleReadsStart()
    ensures StartsWith(ByIdSql, "SELECT r.id") && StartsWith(PopularSql, "SELECT r.id")
  {
    var p := "SELECT r.id";
    ColumnsStart();
    PrefixGrow(p, Columns, " FROM ");
    PrefixGrow(p, Columns + " FROM ", Table);
    PrefixGrow(p, Columns + " FROM " + Table, " r ");
    var j := Columns + " FROM " + Table + " r " + CategoryJoin;
    PrefixGrow(p, Columns + " FROM " + Table + " r ", CategoryJoin);
    PrefixGrow(p, j, " WHERE r.id = ? AND r.status = 'active'");
    PrefixGrow(p, j, " WHERE r.status = 'active'");
    var w := j + " WHERE r.status = 'active'";
    PrefixGrow(p, w, " ORDER BY r.download_count DESC, r.created_at DESC");
    PrefixGrow(p, w + " ORDER BY r.download_count DESC, r.created_at DESC", " LIMIT ?");
  }

  /** A statement starting `SELECT r.id` is a read. */
  lemma ColumnsRead(sql: string)
    requires StartsWith(sql, "SELECT r.id")
    ensures IsRead(sql)
  {
    PrefixAppend("SELECT", " r.id");
    PrefixTrans("SELECT", "SELECT r.id", sql);
    SelectIsRead(sql);
  }

  /** A cache key starts with its statement. */
  lemma KeyStartsWithSql(sql: string, params: Option<seq<Scalar>>)
    ensures StartsWith(CacheKey(sql, params), sql)
  {
    PrefixAppend(sql, ":");
    PrefixGrow(sql, sql + ":", Stringify(ParamsOrEmpty(params)));
  }

  /** Texts starting `SELECT r.id` and `SELECT C` differ. */
  lemma StartsApart(l: string, c: string)
    requires StartsWith(l, "SELECT r.id") && StartsWith(c, "SELECT C")
    ensures l != c
  {
    assert l[7] == "SELECT r.id"[7];
    assert c[7] == "SELECT C"[7];
  }

  /** A statement starting `SELECT r.id` and one starting `SELECT C` are
      both reads and never share a cache key, whatever the values bound. */
  lemma ReadsApart(l: string, c: string, lp: Option<seq<Scalar>>, cp: Option<seq<Scalar>>)
    requires StartsWith(l, "SELECT r.id") && StartsWith(c, "SELECT C")
    ensures IsRead(l) && IsRead(c)
    ensures CacheKey(l, lp) != CacheKey(c, cp)
  {
    ColumnsRead(l);
    PrefixAppend("SELECT", " C");
    PrefixTrans("SELECT", "SELECT C", c);
    SelectIsRead(c);
    KeyStartsWithSql(l, lp);
    KeyStartsWithSql(c, cp);
    PrefixTrans("SELECT r.id", l, CacheKey(l, lp));
    PrefixTrans("SELECT C", c, CacheKey(c, cp));
    StartsApart(CacheKey(l, lp), CacheKey(c, cp));
  }

  /** The listing and the count are both reads, under different keys. */
  lemma ListingReads(where: string, col: SortBy, dir: Direction, lp: Option<seq<Scalar>>, cp: Option<seq<Scalar>>)
    ensures IsRead(ListSql(where, col, dir)) && IsRead(CountSql(where))
    ensures CacheKey(ListSql(where, col, dir), lp) != CacheKey(CountSql(where), cp)
  {
    ListSqlStart(where, col, dir);
    CountSqlStart(where);
    ReadsApart(ListSql(where, col, dir), CountSql(where), lp, cp);
  }

  /** What `Promise.all` in getResources yields: the window of rows, and
      the rows holding the count. */
  datatype ListingRows = ListingRows(rows: seq<Row>, counts: seq<Row>)

  /** Two reads started together under different keys, as `Promise.all`
      starts them: each returns what it would have had it gone alone, and
      either error rejects the pair, the first's first. */
  method ReadPair(db: Executor, l: Statement, c: Statement, now: int, h: Handle) returns (r: Result<ListingRows>)
    requires AllRows(db.cache) && IsRead(l.sql) && IsRead(c.sql)
    requires CacheKey(l.sql, Some(l.params)) != CacheKey(c.sql, Some(c.params))
    modifies db
    ensures var m := old(db.cache);
      var rows := CachedRead(m, l.sql, Some(l.params), now, h);
      var counts := CachedRead(m, c.sql, Some(c.params), now, h);
      && r == (if rows.Err? then Err(rows.msg) else if counts.Err? then Err(counts.msg) else Ok(ListingRows(rows.value, counts.value)))
      && db.cache == AfterRead(AfterRead(m, l.sql, Some(l.params), now, h), c.sql, Some(c.params), now, h)
      && db.issued == old(db.issued) + ReadCalls(m, l.sql, Some(l.params), now) + ReadCalls(m, c.sql, Some(c.params), now)
      && AllRows(db.cache)
  {
    ghost var m := db.cache;
    var rows := db.ReadRows(l.sql, Some(l.params), now, h);
    ReadsCommute(m, l.sql, Some(l.params), c.sql, Some(c.params), now, h);
    var counts := db.ReadRows(c.sql, Some(c.params), now, h);
    AllRowsKept(AfterRead(m, l.sql, Some(l.params), now, h), c.sql, Some(c.params), now, h);
    if rows.Err? {
      r := Err(rows.msg);
    } else if counts.Err? {
      r := Err(counts.msg);
    } else {
      r := Ok(ListingRows(rows.value, counts.value));
    }
  }

  /** The reads of getResources: the window of rows and the count of all
      matching rows, started together through the cache. */
  method FetchResources(db: Executor, q: ResourceQuery, now: int, h: Handle) returns (r: Result<ListingRows>)
    requires AllRows(db.cache)
    modifies db
    ensures var l := ListStatement(WithDefaults(q));
      var c := CountStatement(WithDefaults(q));
      var m := old(db.cache);
      var rows := CachedRead(m, l.sql, Some(l.params), now, h);
      var counts := CachedRead(m, c.sql, Some(c.params), now, h);
      && r == (if rows.Err? then Err(rows.msg) else if counts.Err? then Err(counts.msg) else Ok(ListingRows(rows.value, counts.value)))
      && db.cache == AfterRead(AfterRead(m, l.sql, Some(l.params), now, h), c.sql, Some(c.params), now, h)
      && db.issued == old(db.issued) + ReadCalls(m, l.sql, Some(l.params), now) + ReadCalls(m, c.sql, Some(c.params), now)
      && AllRows(db.cache)
  {
    var s := WithDefaults(q);
    var l, c := ListStatement(s), CountStatement(s);
    ListingReads(WhereSql(Conditions(s)), s.sortBy, s.sortOrder, Some(l.params), Some(c.params));
    r := ReadPair(db, l, c, now, h);
  }

  /** `result.length === 0 ? null : result[0]`, errors passed on. */
  function FirstRow(read: Result<seq<Row>>): (r: Result<Option<Row>>)
    ensures r.Err? <==> read.Err?
    ensures r.Ok? ==> (r.value.None? <==> read.value == []) && (r.value.Some? ==> r.value.value == read.value[0])
  {
    if read.Err? then Err(read.msg) else if read.value == [] then Ok(None) else Ok(Some(read.value[0]))
  }

  /** The read of getResourceById through the cache: the first row
      returned, none when there is none. */
  method FetchResourceById(db: Executor, id: int, now: int, h: Handle) returns (r: Result<Option<Row>>)
    requires AllRows(db.cache)
    modifies db
    ensures r == FirstRow(CachedRead(old(db.cache), ByIdSql, Some([Num(id)]), now, h))
    ensures db.cache == AfterRead(old(db.cache), ByIdSql, Some([Num(id)]), now, h)
    ensures db.issued == old(db.issued) + ReadCalls(old(db.cache), ByIdSql, Some([Num(id)]), now)
  {
    SingleReadsStart();
    ColumnsRead(ByIdSql);
    var rows := db.ReadRows(ByIdSql, Some([Num(id)]), now, h);
    r := FirstRow(rows);
  }

  /** The read of getPopularResources through the cache, with `limit`
      bound in place of its `?`, ten when the caller gives none. */
  method FetchPopularResources(db: Executor, limit: Option<int>, now: int, h: Handle) returns (r: Result<seq<Row>>)
    requires AllRows(db.cache)
    modifies db
    ensures r == CachedRead(old(db.cache), PopularSql, Some([Num(limit.GetOr(PopularDefault))]), now, h)
    ensures db.cache == AfterRead(old(db.cache), PopularSql, Some([Num(limit.GetOr(PopularDefault))]), now, h)
    ensures db.issued == old(db.issued) + ReadCalls(old(db.cache), PopularSql, Some([Num(limit.GetOr(PopularDefault))]), now)
  {
    SingleReadsStart();
    ColumnsRead(PopularSql);
    r := db.ReadRows(PopularSql, Some([Num(limit.GetOr(PopularDefault))]), now, h);
  }

  // ---------------------------------------------------------------------
  // Writes.

  /** What a resource write reports: whether it changed a row, or the
      storage error. */
  function Changed(r: Result<Payload>): Result<bool> {
    if r.Err? then Err(r.msg)
    else if r.value.Ran? then Ok(r.value.info.changes > 0)
    else Ok(false)
  }

  /** The fields of a new resource, as `createResource` receives them. */
  datatype NewResource = NewResource(
    title: string,
    description: Option<string>,
    categoryId: Option<int>,
    fileType: Option<string>,
    fileSize: Option<int>,
    downloadUrl: string,
    downloadPassword: Option<string>,
    thumbnailUrl: Option<string>,
    tags: Option<seq<string>>,
    status: Option<Status>)

  /** `x || null` for optional text and numbers: empty and zero become NULL. */
  function TextOrNull(o: Option<string>): Scalar {
    if o.Some? && o.value != "" then Str(o.value) else Null
  }

  function NumOrNull(o: Option<int>): Scalar {
    if o.Some? && o.value != 0 then Num(o.value) else Null
  }

  /** The text stored for the tags of a new resource: any list, even an
      empty one, as JSON; none as NULL. */
  function TagsColumn(tags: Option<seq<string>>): Option<string> {
    if tags.Some? then Some(EncodeTags(tags.value)) else None
  }

  const InsertSql: string := "INSERT INTO " + Table + " " + InsertColumns

  const InsertColumns: string :=
    "(title, description, category_id, file_type, file_size, download_url, "
    + "download_password, thumbnail_url, tags, status) VALUES (?, ?, ?, ?, ?, ?, ?, ?, ?, ?)"

  function InsertParams(n: NewResource): seq<Scalar> {
    var tags := TagsColumn(n.tags);
    [Str(n.title), TextOrNull(n.description), NumOrNull(n.categoryId), TextOrNull(n.fileType),
     NumOrNull(n.fileSize), Str(n.downloadUrl), TextOrNull(n.downloadPassword), TextOrNull(n.thumbnailUrl),
     if tags.Some? then Str(tags.value) else Null,
     Str(StatusText(n.status.GetOr(Active)))]
  }

  /** Tags survive being stored and read back: the list given to
      createResource is the list every read decodes, and a resource created
      without tags reads back with none. */
  lemma CreatedTagsReadBack(tags: Option<seq<string>>)
    ensures DecodeRowTags(TagsColumn(tags)) == Ok(List(TagsToScalars(tags.GetOr([]))))
  {
    if tags.Some? {
      TagsRoundTrip(tags.value);
      assert EncodeTags(tags.value)[0] == '[';
    }
  }

  /** Whatever an update stores under `tags` reads back: a list as that
      list, a single value (`null`, a number, a text) as that value. */
  lemma PatchedTagsReadBack(f: Field)
    requires !f.Undefined?
    ensures f.Strings? ==> DecodeRowTags(Some(FieldJson(f))) == Ok(List(TagsToScalars(f.items)))
    ensures f.Given? ==> DecodeRowTags(Some(FieldJson(f))) == Ok(Atom(f.value))
  {
    if f.Strings? {
      TagsRoundTrip(f.items);
      assert EncodeTags(f.items)[0] == '[';
    } else {
      AtomRoundTrip(f.value);
      EncodeScalarStart(f.value);
    }
  }

  /** createResource: one INSERT with the `|| null` defaults; returns the new row's id. */
  method CreateResource(db: Executor, n: NewResource, now: int, h: Handle) returns (r: Result<int>)
    modifies db
    ensures db.issued == old(db.issued) + [Database.Run(InsertSql, InsertParams(n))]
    ensures db.cache == Evicted(old(db.cache), Table)
    ensures r == (var w := h.run(InsertSql, InsertParams(n)); if w.Err? then Err(w.msg) else Ok(w.value.lastId))
  {
    InsertNamesTable(Table, InsertColumns);
    var w := db.WriteRows(Table, InsertSql, InsertParams(n), now, h);
    r := if w.Err? then Err(w.msg) else Ok(w.value.lastId);
  }

  /** updateResource: nothing to set means `false` and no statement at
      all; otherwise one UPDATE whose `tags` value is JSON text, and whether
      it changed a row. */
  method UpdateResource(db: Executor, id: int, patch: Patch, now: int, h: Handle) returns (r: Result<bool>)
    requires WellTyped(patch, {"tags"})
    modifies db
    ensures KeptEntries(patch) == [] ==> r == Ok(false) && db.issued == old(db.issued) && db.cache == old(db.cache)
    ensures KeptEntries(patch) != [] ==>
      var st := Statement(UpdateSql(Table, Assignments(patch)), Bindings(patch, {"tags"}) + [Num(id)]);
      && db.issued == old(db.issued) + [Database.Run(st.sql, st.params)]
      && db.cache == Evicted(old(db.cache), Table)
      && r == Changed(Written(h, st.sql, st.params))
  {
    var st := UpdateStatement(Table, id, patch, {"tags"});
    if st.None? {
      return Ok(false);
    }
    UpdateNamesTable(Table, SetClause(Assignments(patch)));
    var p := db.Query(st.value.sql, Some(st.value.params), now, h);
    r := Changed(p);
  }

  const DeleteSql: string := "UPDATE " + Table + " " + SetInactive
  const SetInactive: string := "SET status = \"inactive\" WHERE id = ?"
  const IncrementSql: string := "UPDATE " + Table + " " + SetIncremented
  const SetIncremented: string := "SET download_count = download_count + 1 WHERE id = ?"

  /** deleteResource: a soft delete, one UPDATE setting the status to inactive. */
  method DeleteResource(db: Executor, id: int, now: int, h: Handle) returns (r: Result<bool>)
    modifies db
    ensures db.issued == old(db.issued) + [Database.Run(DeleteSql, [Num(id)])]
    ensures db.cache == Evicted(old(db.cache), Table)
    ensures r == Changed(Written(h, DeleteSql, [Num(id)]))
  {
    UpdateNamesTable(Table, SetInactive);
    var p := db.Query(DeleteSql, Some([Num(id)]), now, h);
    r := Changed(p);
  }

  /** incrementDownloadCount: one UPDATE adding 1 to the counter. */
  method IncrementDownloadCount(db: Executor, id: int, now: int, h: Handle) returns (r: Result<bool>)
    modifies db
    ensures db.issued == old(db.issued) + [Database.Run(IncrementSql, [Num(id)])]
    ensures db.cache == Evicted(old(db.cache), Table)
    ensures r == Changed(Written(h, IncrementSql, [Num(id)]))
  {
    UpdateNamesTable(Table, SetIncremented);
    var p := db.Query(IncrementSql, Some([Num(id)]), now, h);
    r := Changed(p);
  }

  /** What the soft delete does to the table: the rows with the id become
      inactive; nothing is removed and nothing else changes. */
  function SoftDeleted(table: seq<Resource>, id: int): (t: seq<Resource>)
    ensures |t| == |table|
    ensures forall i :: 0 <= i < |t| ==>
      t[i] == if table[i].id == id then table[i].(status := Inactive) else table[i]
  {
    seq(|table|, i requires 0 <= i < |table| => if table[i].id == id then table[i].(status := Inactive) else table[i])
  }

  /** What the counter update does to the table. */
  function Incremented(table: seq<Resource>, id: int): (t: seq<Resource>)
    ensures |t| == |table|
    ensures forall i :: 0 <= i < |t| ==>
      t[i] == if table[i].id == id then table[i].(downloadCount := table[i].downloadCount + 1) else table[i]
  {
    seq(|table|, i requires 0 <= i < |table| =>
      if table[i].id == id then table[i].(downloadCount := table[i].downloadCount + 1) else table[i])
  }

  /** The downloads counted over all rows of the table. */
  function Downloads(table: seq<Resource>): int {
    if table == [] then 0 else Downloads(table[..|table| - 1]) + table[|table| - 1].downloadCount
  }

  /** How many rows of the table carry the id. */
  function RowsWithId(table: seq<Resource>, id: int): nat {
    if table == [] then 0 else RowsWithId(table[..|table| - 1], id) + (if table[|table| - 1].id == id then 1 else 0)
  }

  /** The counter update adds one download per row with the id, and
      changes nothing in any row but its counter. */
  lemma {:induction false} IncrementedTotals(table: seq<Resource>, id: int)
    ensures Downloads(Incremented(table, id)) == Downloads(table) + RowsWithId(table, id)
    ensures forall i :: 0 <= i < |table| ==>
      Incremented(table, id)[i].(downloadCount := table[i].downloadCount) == table[i]
    decreases |table|
  {
    if table != [] {
      var init := table[..|table| - 1];
      IncrementedTotals(init, id);
      assert Incremented(table, id)[..|table| - 1] == Incremented(init, id);
    }
  }

  /** After a delete the resource can no longer be read by id, while its
      row is still in the table. */
  lemma DeletedIsGone(table: seq<Resource>, categories: seq<Category>, id: int)
    ensures GetResourceById(SoftDeleted(table, id), categories, id) == Ok(None)
    ensures forall i :: 0 <= i < |table| ==> SoftDeleted(table, id)[i].id == table[i].id
  {
    var t := SoftDeleted(table, id);
    forall x | x in t ensures x.id != id || x.status != Active {
      var i :| 0 <= i < |t| && t[i] == x;
    }
  }

  /** Every write of the repository names the `resources` table, so it
      evicts every cached listing, count and read by id. */
  lemma WritesEvictListings(s: Settled, now: int, m: Cache)
    ensures !Servable(Evicted(m, Table), CacheKey(ListStatement(s).sql, Some(ListStatement(s).params)), now)
    ensures !Servable(Evicted(m, Table), CacheKey(CountStatement(s).sql, Some(CountStatement(s).params)), now)
  {
    ListingNamesTable(s);
    NamedStatementEvicted(m, Table, ListStatement(s).sql, Some(ListStatement(s).params), now);
    CountNamesTable(s);
    NamedStatementEvicted(m, Table, CountStatement(s).sql, Some(CountStatement(s).params), now);
  }

  lemma ListingNamesTable(s: Settled)
    ensures Contains(ListStatement(s).sql, Table)
  {
    var w := WhereSql(Conditions(s));
    var o := OrderClause(s.sortBy, s.sortOrder);
    ContainsSelf(Columns + " FROM (SELECT id FROM ", Table, " r ");
    ContainsGrow(ListHead(), w, Table);
    ContainsGrow(ListHead() + w, o, Table);
    ContainsGrow(ListHead() + w + o, WindowText, Table);
    ContainsGrow(ListHead() + w + o + WindowText, ListTail(), Table);
    ContainsGrow(ListHead() + w + o + WindowText + ListTail(), o, Table);
  }

  lemma CountNamesTable(s: Settled)
    ensures Contains(CountStatement(s).sql, Table)
  {
    var w := WhereSql(Conditions(s));
    ContainsSelf("SELECT COUNT(*) as total FROM ", Table, " r ");
    ContainsGrow("SELECT COUNT(*) as total FROM " + Table + " r ", ReplaceFirst(w, CategoryJoin, ""), Table);
  }
}
