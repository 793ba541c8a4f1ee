/** The category repository (backend/src/models/Category.ts): the listing
    whose SQL grows with `includeCount`, creation with `||` defaults, the
    patch update, the delete that refuses while active resources remain,
    the name check with an optional excluded id, and the sort-order update.
    Every statement goes through the executor of the data layer. */
module Categories {
  import opened Wrappers
  import opened Text
  import opened Json
  import opened Sql
  import opened Database
  import opened Schema

  const Table: string := "categories"

  lemma TableIsWord()
    ensures IsWord(Table)
  {
  }

  // ---------------------------------------------------------------------
  // getCategories: the statement text.

  const CategoryColumns: string := "SELECT" + ColumnNames
  const ColumnNames: string :=
    " c.id, c.name, c.description, " + "c.icon, c.sort_order, c.status, " + "c.created_at, c.updated_at"
  const CountColumn: string := ", COUNT(r.id) as resource_count"
  const FromCategories: string := " FROM categories c"
  const ActiveResourcesJoin: string :=
    " LEFT JOIN " + "resources" + " r ON c.id = r.category_id " + "AND r.status = 'active'"
  const ActiveOnly: string := " WHERE c.status = 'active'"
  const GroupById: string := " GROUP BY c.id"
  const CategoryOrder: string := " ORDER BY c.sort_order ASC, " + "c.created_at ASC"

  /** The pieces of the listing statement in the order they are appended:
      the count column, the join on active resources and the grouping only
      when counting. */
  function CategoryPieces(includeCount: bool): seq<string> {
    [CategoryColumns] + When(includeCount, CountColumn) + [FromCategories]
    + When(includeCount, ActiveResourcesJoin) + [ActiveOnly]
    + When(includeCount, GroupById) + [CategoryOrder]
  }

  /** A piece appended only under a condition. */
  function When(c: bool, x: string): seq<string> {
    if c then [x] else []
  }

  /** The text of pieces written one after the other. */
  function Concat(ps: seq<string>): string {
    if ps == [] then "" else Concat(ps[..|ps| - 1]) + ps[|ps| - 1]
  }

  function CategoriesSql(includeCount: bool): string {
    Concat(CategoryPieces(includeCount))
  }

  lemma ConcatSnoc(ps: seq<string>, x: string)
    ensures Concat(ps + [x]) == Concat(ps) + x
  {
    assert (ps + [x])[..|ps|] == ps;
  }

  /** Text found in one piece is found in the whole. */
  lemma {:induction false} ConcatContains(ps: seq<string>, i: nat, t: string)
    requires i < |ps| && Contains(ps[i], t)
    ensures Contains(Concat(ps), t)
    decreases |ps|
  {
    var init := ps[..|ps| - 1];
    if i == |ps| - 1 {
      ContainsExtend(Concat(init), ps[i], "", t);
      assert Concat(init) + ps[i] + "" == Concat(ps);
    } else {
      assert init[i] == ps[i];
      ConcatContains(init, i, t);
      ContainsGrow(Concat(init), ps[|ps| - 1], t);
    }
  }

  /** Appends the pieces of the listing statement one after the other. */
  method BuildCategoriesSql(includeCount: bool) returns (sql: string)
    ensures sql == CategoriesSql(includeCount)
  {
    ghost var ps: seq<string> := [CategoryColumns];
    sql := CategoryColumns;
    assert Concat(ps) == Concat([]) + CategoryColumns;
    sql, ps := AppendWhen(sql, ps, includeCount, CountColumn);
    sql, ps := AppendWhen(sql, ps, true, FromCategories);
    sql, ps := AppendWhen(sql, ps, includeCount, ActiveResourcesJoin);
    sql, ps := AppendWhen(sql, ps, true, ActiveOnly);
    sql, ps := AppendWhen(sql, ps, includeCount, GroupById);
    sql, ps := AppendWhen(sql, ps, true, CategoryOrder);
  }

  /** `if (c) sql += x`, keeping the pieces written so far. */
  method AppendWhen(sql: string, ghost ps: seq<string>, c: bool, x: string) returns (sql': string, ghost ps': seq<string>)
    requires sql == Concat(ps)
    ensures ps' == ps + When(c, x) && sql' == Concat(ps')
  {
    if c {
      ConcatSnoc(ps, x);
      sql', ps' := sql + x, ps + [x];
    } else {
      sql', ps' := sql, ps;
    }
  }

  /** The seven pieces have different lengths, so no two are equal. */
  lemma PieceLengths()
    ensures |CategoryColumns| == 94 && |CountColumn| == 31 && |FromCategories| == 18
    ensures |ActiveResourcesJoin| == 70 && |ActiveOnly| == 26 && |GroupById| == 14 && |CategoryOrder| == 44
  {
  }

  /** The count column, the join on active resources and the grouping are
      appended exactly when counting; the column list always comes first,
      the active-only filter is always there, and the two-key order always
      comes last. */
  lemma CategoryPiecesShape(includeCount: bool)
    ensures CountColumn in CategoryPieces(includeCount) <==> includeCount
    ensures ActiveResourcesJoin in CategoryPieces(includeCount) <==> includeCount
    ensures GroupById in CategoryPieces(includeCount) <==> includeCount
    ensures ActiveOnly in CategoryPieces(includeCount)
    ensures CategoryPieces(includeCount)[0] == CategoryColumns
    ensures CategoryPieces(includeCount)[|CategoryPieces(includeCount)| - 1] == CategoryOrder
  {
    PieceLengths();
    if !includeCount {
      assert CategoryPieces(false) == [CategoryColumns, FromCategories, ActiveOnly, CategoryOrder];
    }
  }

  lemma ColumnsSelect()
    ensures StartsWith(CategoryColumns, "SELECT")
  {
    PrefixAppend("SELECT", ColumnNames);
  }

  /** The listing statement starts with its column list. */
  lemma CategoriesSqlStart(includeCount: bool)
    ensures StartsWith(CategoriesSql(includeCount), CategoryColumns)
  {
    var ps := CategoryPieces(includeCount);
    ConcatHead(ps);
  }

  /** Pieces written out start with the first piece. */
  lemma {:induction false} ConcatHead(ps: seq<string>)
    requires ps != []
    ensures StartsWith(Concat(ps), ps[0])
    decreases |ps|
  {
    var init := ps[..|ps| - 1];
    if |ps| == 1 {
      assert Concat(ps) == "" + ps[0];
    } else {
      ConcatHead(init);
      PrefixGrow(ps[0], Concat(init), ps[|ps| - 1]);
    }
  }

  /** getCategories: one read through the cache, without parameters;
      storage errors are rethrown unchanged. */
  method GetCategories(db: Executor, includeCount: bool, now: int, h: Handle) returns (r: Result<seq<Row>>)
    requires AllRows(db.cache)
    modifies db
    ensures r == CachedRead(old(db.cache), CategoriesSql(includeCount), None, now, h)
    ensures db.cache == AfterRead(old(db.cache), CategoriesSql(includeCount), None, now, h)
    ensures db.issued == old(db.issued) + ReadCalls(old(db.cache), CategoriesSql(includeCount), None, now)
  {
    var sql := BuildCategoriesSql(includeCount);
    CategoriesSqlStart(includeCount);
    ColumnsSelect();
    PrefixTrans("SELECT", CategoryColumns, sql);
    SelectIsRead(sql);
    r := db.ReadRows(sql, None, now, h);
  }

  /** The counted listing names the resources table, so any write to it
      evicts the counted listing from the cache. */
  lemma CountedListingNamesResources(m: Cache, now: int)
    ensures !Servable(Evicted(m, "resources"), CacheKey(CategoriesSql(true), None), now)
  {
    var j := " LEFT JOIN " + "resources" + " r ON c.id = r.category_id ";
    ContainsSelf(" LEFT JOIN ", "resources", " r ON c.id = r.category_id ");
    ContainsGrow(j, "AND r.status = 'active'", "resources");
    var ps := CategoryPieces(true);
    assert ps[3] == ActiveResourcesJoin;
    ConcatContains(ps, 3, "resources");
    NamedStatementEvicted(m, "resources", CategoriesSql(true), None, now);
  }

  // ---------------------------------------------------------------------
  // createCategory.

  /** The fields `createCategory` receives. */
  datatype NewCategory = NewCategory(
    name: string,
    description: Option<string>,
    icon: Option<string>,
    sortOrder: Option<int>,
    status: Option<Status>)

  const InsertSql: string := "INSERT INTO " + Table + " " + (InsertColumns + InsertValues)
  const InsertColumns: string := "(name, description, " + "icon, sort_order, status) "
  const InsertValues: string := "VALUES (" + "?" + ", " + "?" + ", " + "?" + ", " + "?" + ", " + "?" + ")"

  /** `x || null`: missing or empty text becomes NULL. */
  function TextOrNull(o: Option<string>): (v: Scalar)
    ensures v == Null <==> o.None? || o.value == ""
    ensures v != Null ==> v == Str(o.value)
  {
    if o.Some? && o.value != "" then Str(o.value) else Null
  }

  /** The values of the insert, in column order, with the `||` defaults of
      the source: no text for NULL, a falsy sort order for 0, no status for
      active. */
  function InsertParams(c: NewCategory): (ps: seq<Scalar>)
    ensures |ps| == 5 && ps[0] == Str(c.name)
    ensures ps[1] == Null <==> c.description.None? || c.description.value == ""
    ensures ps[2] == Null <==> c.icon.None? || c.icon.value == ""
    ensures ps[1] != Null ==> ps[1] == Str(c.description.value)
    ensures ps[2] != Null ==> ps[2] == Str(c.icon.value)
    ensures ps[3] == Num(if c.sortOrder.Some? then c.sortOrder.value else 0)
    ensures ps[4] == Str(if c.status == Some(Inactive) then "inactive" else "active")
  {
    [Str(c.name), TextOrNull(c.description), TextOrNull(c.icon),
     Num(if c.sortOrder.Some? && c.sortOrder.value != 0 then c.sortOrder.value else 0),
     Str(StatusText(c.status.GetOr(Active)))]
  }

  lemma ValuesPlaceholders()
    ensures Placeholders(InsertValues) == 5
  {
    var v := "VALUES (";
    PlaceholdersNone(v);
    PlaceholdersNone(", ");
    PlaceholdersNone(")");
    PlaceholderOne();
    PlaceholdersAppend(v, "?");
    PlaceholdersAppend(v + "?", ", ");
    PlaceholdersAppend(v + "?" + ", ", "?");
    PlaceholdersAppend(v + "?" + ", " + "?", ", ");
    PlaceholdersAppend(v + "?" + ", " + "?" + ", ", "?");
    PlaceholdersAppend(v + "?" + ", " + "?" + ", " + "?", ", ");
    PlaceholdersAppend(v + "?" + ", " + "?" + ", " + "?" + ", ", "?");
    PlaceholdersAppend(v + "?" + ", " + "?" + ", " + "?" + ", " + "?", ", ");
    PlaceholdersAppend(v + "?" + ", " + "?" + ", " + "?" + ", " + "?" + ", ", "?");
    PlaceholdersAppend(v + "?" + ", " + "?" + ", " + "?" + ", " + "?" + ", " + "?", ")");
  }

  lemma ColumnListPlaceholders()
    ensures Placeholders(InsertColumns) == 0
  {
    PlaceholdersNone("(name, description, ");
    PlaceholdersNone("icon, sort_order, status) ");
    PlaceholdersAppend("(name, description, ", "icon, sort_order, status) ");
  }

  lemma InsertHeadPlaceholders()
    ensures Placeholders("INSERT INTO " + Table + " ") == 0
  {
    PlaceholdersNone("INSERT INTO ");
    PlaceholdersNone(Table);
    PlaceholdersNone(" ");
    PlaceholdersAppend("INSERT INTO ", Table);
    PlaceholdersAppend("INSERT INTO " + Table, " ");
  }

  /** The insert binds one value per placeholder. */
  lemma InsertPlaceholders(c: NewCategory)
    ensures Placeholders(InsertSql) == |InsertParams(c)|
  {
    ValuesPlaceholders();
    ColumnListPlaceholders();
    InsertHeadPlaceholders();
    PlaceholdersAppend(InsertColumns, InsertValues);
    PlaceholdersAppend("INSERT INTO " + Table + " ", InsertColumns + InsertValues);
  }

  /** createCategory: one INSERT; returns the new row's id; storage errors
      are rethrown unchanged. */
  method CreateCategory(db: Executor, c: NewCategory, now: int, h: Handle) returns (r: Result<int>)
    modifies db
    ensures db.issued == old(db.issued) + [Database.Run(InsertSql, InsertParams(c))]
    ensures db.cache == Evicted(old(db.cache), Table)
    ensures r == (var w := h.run(InsertSql, InsertParams(c)); if w.Err? then Err(w.msg) else Ok(w.value.lastId))
  {
    TableIsWord();
    InsertNamesTable(Table, InsertColumns + InsertValues);
    var w := db.WriteRows(Table, InsertSql, InsertParams(c), now, h);
    r := if w.Err? then Err(w.msg) else Ok(w.value.lastId);
  }

  // ---------------------------------------------------------------------
  // The category writes: one UPDATE whose failure is reported with a fixed
  // message.

  /** An UPDATE of the category table. */
  function UpdateOf(rest: string): string {
    "UPDATE " + Table + " " + rest
  }

  /** What a category write reports: whether a row changed, or the fixed
      message that replaces any storage error. */
  function ChangedOr(w: Result<RunInfo>, failure: string): (r: Result<bool>)
    ensures r.Err? <==> w.Err?
    ensures r.Err? ==> r.msg == failure
    ensures r.Ok? ==> (r.value <==> w.value.changes > 0)
  {
    if w.Err? then Err(failure) else Ok(w.value.changes > 0)
  }

  /** Issues one UPDATE of the category table; the write evicts every cached
      read of the table. */
  method RunUpdate(db: Executor, rest: string, params: seq<Scalar>, failure: string, now: int, h: Handle)
    returns (r: Result<bool>)
    modifies db
    ensures db.issued == old(db.issued) + [Database.Run(UpdateOf(rest), params)]
    ensures db.cache == Evicted(old(db.cache), Table)
    ensures r == ChangedOr(h.run(UpdateOf(rest), params), failure)
  {
    TableIsWord();
    UpdateNamesTable(Table, rest);
    var p := db.Query(UpdateOf(rest), Some(params), now, h);
    if p.Err? {
      return Err(failure);
    }
    r := Ok(p.value.info.changes > 0);
  }

  // ---------------------------------------------------------------------
  // updateCategory.

  const UpdateFailed: string := "更新分类失败"

  /** updateCategory: nothing left to set means `false` and no statement;
      otherwise one UPDATE with the id bound last. Values are bound as
      given (no key is stored as JSON). */
  method UpdateCategory(db: Executor, id: int, patch: Patch, now: int, h: Handle) returns (r: Result<bool>)
    requires WellTyped(patch, {})
    modifies db
    ensures KeptEntries(patch) == [] ==> r == Ok(false) && db.issued == old(db.issued) && db.cache == old(db.cache)
    ensures KeptEntries(patch) != [] ==>
      var sql, ps := UpdateSql(Table, Assignments(patch)), Bindings(patch, {}) + [Num(id)];
      && db.issued == old(db.issued) + [Database.Run(sql, ps)]
      && db.cache == Evicted(old(db.cache), Table)
      && r == ChangedOr(h.run(sql, ps), UpdateFailed)
  {
    var st := UpdateStatement(Table, id, patch, {});
    if st.None? {
      return Ok(false);
    }
    r := RunUpdate(db, SetClause(Assignments(patch)), st.value.params, UpdateFailed, now, h);
  }

  // ---------------------------------------------------------------------
  // deleteCategory.

  const CountFrom: string := " COUNT(*) as count FROM "
  const ActiveStatus: string := " AND status = " + "\"active\""
  const CheckSql: string := "SELECT" + (CountFrom + "resources" + " WHERE category_id = " + "?" + ActiveStatus)
  const SetInactive: string := "SET status = \"inactive\" WHERE id = ?"
  const InUse: string := "该分类下还有资源，无法删除"
  const DeleteFailed: string := "删除分类失败"

  /** A row's `count` column; an absent column reads as NULL. */
  function CountOf(row: Row): Scalar {
    if "count" in row then row["count"] else Null
  }

  /** `rows[0].count`: reading it from no row at all throws. */
  function FirstCount(rows: seq<Row>): (r: Result<Scalar>)
    ensures r.Err? <==> rows == []
    ensures r.Ok? ==> r.value == CountOf(rows[0])
  {
    if rows == [] then Err("TypeError") else Ok(CountOf(rows[0]))
  }

  /** `count > 0`: only a positive number is; NULL compares false. */
  predicate Positive(v: Scalar) {
    v.Num? && v.n > 0
  }

  /** Why deleteCategory stops before writing, if it does: the failure of
      the count read, a missing first row, or a positive count. */
  function DeleteRefusal(check: Result<seq<Row>>): (r: Option<string>)
    ensures r.None? <==> check.Ok? && check.value != [] && !Positive(CountOf(check.value[0]))
    ensures check.Err? ==> r == Some(check.msg)
    ensures check.Ok? && check.value != [] && Positive(CountOf(check.value[0])) ==> r == Some(InUse)
  {
    if check.Err? then Some(check.msg)
    else
      var count := FirstCount(check.value);
      if count.Err? then Some(count.msg)
      else if Positive(count.value) then Some(InUse)
      else None
  }

  /** A statement of the form `SELECT COUNT(*) … WHERE <column> = ? AND
      status = "active"` has one placeholder. */
  lemma CountPlaceholders(table: string, column: string)
    requires '?' !in table && '?' !in column
    ensures Placeholders("SELECT" + (CountFrom + table + column + "?" + ActiveStatus)) == 1
  {
    PlaceholdersNone("SELECT");
    PlaceholdersNone(CountFrom);
    PlaceholdersNone(table);
    PlaceholdersNone(column);
    PlaceholderOne();
    PlaceholdersNone(" AND status = ");
    PlaceholdersNone("\"active\"");
    PlaceholdersAppend(" AND status = ", "\"active\"");
    PlaceholdersAppend(CountFrom, table);
    PlaceholdersAppend(CountFrom + table, column);
    PlaceholdersAppend(CountFrom + table + column, "?");
    PlaceholdersAppend(CountFrom + table + column + "?", ActiveStatus);
    PlaceholdersAppend("SELECT", CountFrom + table + column + "?" + ActiveStatus);
  }

  /** The check reads, and binds its one value to its one placeholder. */
  lemma CheckShape()
    ensures StartsWith(CheckSql, "SELECT")
    ensures Placeholders(CheckSql) == 1
  {
    CheckSelect();
    CountPlaceholders("resources", " WHERE category_id = ");
  }

  lemma CheckSelect()
    ensures StartsWith(CheckSql, "SELECT")
  {
    PrefixAppend("SELECT", CountFrom + "resources" + " WHERE category_id = " + "?" + ActiveStatus);
  }

  /** deleteCategory: the count of active resources in the category is read
      (through the cache) outside any error handling, so its failures
      propagate unchanged; a positive count refuses the delete with no
      statement issued; otherwise a soft delete to `inactive` whose failure
      is reported with a fixed message. */
  method DeleteCategory(db: Executor, id: int, now: int, h: Handle) returns (r: Result<bool>)
    requires AllRows(db.cache)
    modifies db
    ensures var check := CachedRead(old(db.cache), CheckSql, Some([Num(id)]), now, h);
      var m := AfterRead(old(db.cache), CheckSql, Some([Num(id)]), now, h);
      var calls := old(db.issued) + ReadCalls(old(db.cache), CheckSql, Some([Num(id)]), now);
      var refusal := DeleteRefusal(check);
      if refusal.Some? then
        r == Err(refusal.value) && db.cache == m && db.issued == calls
      else
        && r == ChangedOr(h.run(UpdateOf(SetInactive), [Num(id)]), DeleteFailed)
        && db.cache == Evicted(m, Table)
        && db.issued == calls + [Database.Run(UpdateOf(SetInactive), [Num(id)])]
  {
    CheckShape();
    SelectIsRead(CheckSql);
    var check := db.ReadRows(CheckSql, Some([Num(id)]), now, h);
    var refusal := DeleteRefusal(check);
    if refusal.Some? {
      return Err(refusal.value);
    }
    r := RunUpdate(db, SetInactive, [Num(id)], DeleteFailed, now, h);
  }

  /** A refused delete issues no statement that changes anything. */
  lemma RefusedDeleteWritesNothing(m: Cache, id: int, now: int)
    ensures forall c :: c in ReadCalls(m, CheckSql, Some([Num(id)]), now) ==> c.All?
  {
  }

  // ---------------------------------------------------------------------
  // checkNameExists.

  const NameCheckSql: string := "SELECT" + (CountFrom + Table + " WHERE name = " + "?" + ActiveStatus)
  const ExcludeId: string := " AND id != " + "?"
  const NameCheckFailed: string := "检查分类名称失败"

  /** `if (excludeId)`: present and not zero. */
  predicate Truthy(excludeId: Option<int>) {
    excludeId.Some? && excludeId.value != 0
  }

  /** The statement and values of the name check: the excluded id
      appended only when truthy. */
  function NameCheck(name: string, excludeId: Option<int>): Statement {
    if Truthy(excludeId) then Statement(NameCheckSql + ExcludeId, [Str(name), Num(excludeId.value)])
    else Statement(NameCheckSql, [Str(name)])
  }

  /** Builds the name check as the source does, by appending. */
  method BuildNameCheck(name: string, excludeId: Option<int>) returns (st: Statement)
    ensures st == NameCheck(name, excludeId)
  {
    var sql := NameCheckSql;
    var params := [Str(name)];
    if excludeId.Some? && excludeId.value != 0 {
      sql := sql + ExcludeId;
      params := params + [Num(excludeId.value)];
    }
    st := Statement(sql, params);
  }

  /** The name check always starts with the name condition and binds the
      name first; it ends with `AND id != ?` and binds a second value
      exactly when the excluded id is truthy; and it binds one value per
      placeholder. */
  lemma NameCheckShape(name: string, excludeId: Option<int>)
    ensures StartsWith(NameCheck(name, excludeId).sql, NameCheckSql)
    ensures NameCheck(name, excludeId).params[0] == Str(name)
    ensures EndsWith(NameCheck(name, excludeId).sql, ExcludeId) <==> Truthy(excludeId)
    ensures |NameCheck(name, excludeId).params| == (if Truthy(excludeId) then 2 else 1)
    ensures Placeholders(NameCheck(name, excludeId).sql) == |NameCheck(name, excludeId).params|
  {
    NameCheckEnds();
    PrefixAppend(NameCheckSql, ExcludeId);
    CountPlaceholders(Table, " WHERE name = ");
    if Truthy(excludeId) {
      ExcludePlaceholders();
    }
  }

  /** Only the excluded-id condition ends the name check with `?`. */
  lemma NameCheckEnds()
    ensures !EndsWith(NameCheckSql, ExcludeId)
    ensures EndsWith(NameCheckSql + ExcludeId, ExcludeId)
  {
    var e := NameCheckSql + ExcludeId;
    assert e[|e| - |ExcludeId|..] == ExcludeId;
    var q := "\"active\"";
    assert NameCheckSql[|NameCheckSql| - 1] == q[|q| - 1];
  }

  lemma ExcludePlaceholders()
    ensures Placeholders(NameCheckSql + ExcludeId) == 2
  {
    CountPlaceholders(Table, " WHERE name = ");
    PlaceholdersNone(" AND id != ");
    PlaceholderOne();
    PlaceholdersAppend(" AND id != ", "?");
    PlaceholdersAppend(NameCheckSql, ExcludeId);
  }

  /** Every form of the name check reads. */
  lemma NameCheckSelect(sql: string)
    requires StartsWith(sql, NameCheckSql)
    ensures IsRead(sql)
  {
    PrefixAppend("SELECT", CountFrom + Table + " WHERE name = " + "?" + ActiveStatus);
    PrefixTrans("SELECT", NameCheckSql, sql);
    SelectIsRead(sql);
  }

  /** What the name check answers from the rows it read: any failure,
      reading the count included, becomes the fixed message; otherwise
      whether the count is positive. */
  function NameTaken(read: Result<seq<Row>>): (r: Result<bool>)
    ensures r.Err? <==> read.Err? || read.value == []
    ensures r.Err? ==> r.msg == NameCheckFailed
    ensures r.Ok? ==> (r.value <==> Positive(CountOf(read.value[0])))
  {
    if read.Err? then Err(NameCheckFailed)
    else
      var count := FirstCount(read.value);
      if count.Err? then Err(NameCheckFailed) else Ok(Positive(count.value))
  }

  /** checkNameExists: whether an active category other than the excluded
      one has this name, read through the cache. */
  method CheckNameExists(db: Executor, name: string, excludeId: Option<int>, now: int, h: Handle)
    returns (r: Result<bool>)
    requires AllRows(db.cache)
    modifies db
    ensures var st := NameCheck(name, excludeId);
      && db.cache == AfterRead(old(db.cache), st.sql, Some(st.params), now, h)
      && db.issued == old(db.issued) + ReadCalls(old(db.cache), st.sql, Some(st.params), now)
      && r == NameTaken(CachedRead(old(db.cache), st.sql, Some(st.params), now, h))
  {
    var st := BuildNameCheck(name, excludeId);
    NameCheckShape(name, excludeId);
    NameCheckSelect(st.sql);
    var read := db.ReadRows(st.sql, Some(st.params), now, h);
    r := NameTaken(read);
  }

  // ---------------------------------------------------------------------
  // updateSortOrder.

  datatype SortUpdate = SortUpdate(id: int, sortOrder: int)

  const SetSortOrder: string := "SET sort_order = ? WHERE id = ?"
  const SortFailed: string := "更新分类排序失败"

  function SortParams(u: SortUpdate): seq<Scalar> {
    [Num(u.sortOrder), Num(u.id)]
  }

  /** The statements of the items, in order. */
  function SortCalls(updates: seq<SortUpdate>): seq<Call> {
    if updates == [] then []
    else SortCalls(updates[..|updates| - 1]) + [Database.Run(UpdateOf(SetSortOrder), SortParams(updates[|updates| - 1]))]
  }

  /** One UPDATE per item, the i-th binding the i-th item. */
  lemma {:induction false} SortCallsShape(updates: seq<SortUpdate>)
    ensures |SortCalls(updates)| == |updates|
    ensures forall i :: 0 <= i < |updates| ==>
      SortCalls(updates)[i] == Database.Run(UpdateOf(SetSortOrder), SortParams(updates[i]))
    decreases |updates|
  {
    if updates != [] {
      var init := updates[..|updates| - 1];
      SortCallsShape(init);
      assert forall i :: 0 <= i < |init| ==> init[i] == updates[i];
    }
  }

  predicate Fails(h: Handle, u: SortUpdate) {
    h.run(UpdateOf(SetSortOrder), SortParams(u)).Err?
  }

  /** Whether storage refuses some item's update. */
  predicate AnyFails(h: Handle, updates: seq<SortUpdate>) {
    updates != [] && (AnyFails(h, updates[..|updates| - 1]) || Fails(h, updates[|updates| - 1]))
  }

  lemma {:induction false} AnyFailsMeans(h: Handle, updates: seq<SortUpdate>)
    ensures AnyFails(h, updates) <==> exists i :: 0 <= i < |updates| && Fails(h, updates[i])
    decreases |updates|
  {
    if updates != [] {
      var init := updates[..|updates| - 1];
      AnyFailsMeans(h, init);
      assert forall i :: 0 <= i < |init| ==> init[i] == updates[i];
    }
  }

  /** updateSortOrder: every item's statement is issued (all of them are
      started before any is awaited), and the result is `true` when all
      succeed and the fixed message when any fails. */
  method UpdateSortOrder(db: Executor, updates: seq<SortUpdate>, now: int, h: Handle) returns (r: Result<bool>)
    modifies db
    ensures db.issued == old(db.issued) + SortCalls(updates)
    ensures db.cache == if updates == [] then old(db.cache) else Evicted(old(db.cache), Table)
    ensures r == if AnyFails(h, updates) then Err(SortFailed) else Ok(true)
  {
    var failed := false;
    var i := 0;
    while i < |updates|
      invariant 0 <= i <= |updates|
      invariant db.issued == old(db.issued) + SortCalls(updates[..i])
      invariant db.cache == if i == 0 then old(db.cache) else Evicted(old(db.cache), Table)
      invariant failed <==> AnyFails(h, updates[..i])
    {
      var p := RunUpdate(db, SetSortOrder, SortParams(updates[i]), SortFailed, now, h);
      EvictedTwice(old(db.cache), Table);
      assert updates[..i + 1][..i] == updates[..i];
      AppendAssoc(old(db.issued), SortCalls(updates[..i]), [Database.Run(UpdateOf(SetSortOrder), SortParams(updates[i]))]);
      failed := failed || p.Err?;
      i := i + 1;
    }
    assert updates[..i] == updates;
    r := if failed then Err(SortFailed) else Ok(true);
  }

  /** Evicting a table twice is evicting it once. */
  lemma EvictedTwice(m: Cache, table: string)
    ensures Evicted(Evicted(m, table), table) == Evicted(m, table)
  {
  }
}
