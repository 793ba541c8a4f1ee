/** The client-side category helpers (frontend/src/services/categoryService.ts):
    the listing URL, the active list sorted by sort order, the renumbering
    sent after a drag-and-drop, the case-insensitive name check and the
    select options. The HTTP calls are parameters: each helper receives what
    the call answered, or the error it threw. */
module CategoryService {
  import opened Wrappers
  import opened Text
  import opened Schema

  /** The envelope every API call answers with. */
  datatype Response = Response(success: bool, data: Option<seq<Category>>, message: Option<string>)

  /** `response.success && response.data`: an array is truthy even when empty. */
  predicate HasData(r: Response) {
    r.success && r.data.Some?
  }

  // ---------------------------------------------------------------------
  // getCategories: the URL.

  const CategoriesPath: string := "/api/categories"
  const IncludeCount: string := "?include_count=true"

  /** The listing URL: the path, with the count query only when asked. */
  function CategoriesUrl(includeCount: bool): string {
    CategoriesPath + (if includeCount then IncludeCount else "")
  }

  /** The URL always starts with the path, and carries a query exactly
      when counts are asked for. */
  lemma CategoriesUrlShape(includeCount: bool)
    ensures StartsWith(CategoriesUrl(includeCount), CategoriesPath)
    ensures '?' in CategoriesUrl(includeCount) <==> includeCount
  {
    var url := CategoriesUrl(includeCount);
    PrefixAppend(CategoriesPath, if includeCount then IncludeCount else "");
    if includeCount {
      assert url[|CategoriesPath|] == '?';
    } else {
      assert url == "/api/categories";
    }
  }

  // ---------------------------------------------------------------------
  // getActiveCategories: filter, then a stable sort on `sort_order`.

  /** `filter(category => category.status === 'active')`. */
  function Actives(cs: seq<Category>): seq<Category> {
    if cs == [] then []
    else (if cs[0].status == Active then [cs[0]] else []) + Actives(cs[1..])
  }

  /** The filter keeps each active category as often as it occurs, and
      nothing else. */
  lemma {:induction false} ActivesCount(cs: seq<Category>)
    ensures forall c :: multiset(Actives(cs))[c] == if c.status == Active then multiset(cs)[c] else 0
    decreases |cs|
  {
    if cs != [] {
      ActivesCount(cs[1..]);
      assert cs == [cs[0]] + cs[1..];
    }
  }

  predicate SortedByOrder(s: seq<Category>) {
    forall i, j :: 0 <= i < j < |s| ==> s[i].sortOrder <= s[j].sortOrder
  }

  /** Places `x` before the first element whose sort order is not smaller,
      so that it stays ahead of the equal keys that followed it. */
  function Insert(x: Category, s: seq<Category>): seq<Category> {
    if s == [] then [x]
    else if x.sortOrder <= s[0].sortOrder then [x] + s
    else [s[0]] + Insert(x, s[1..])
  }

  /** `sort((a, b) => a.sort_order - b.sort_order)`: a stable sort, as
      `Array.prototype.sort` is. */
  function SortByOrder(xs: seq<Category>): seq<Category> {
    if xs == [] then [] else Insert(xs[0], SortByOrder(xs[1..]))
  }

  /** The categories with sort order `k`, in order. */
  function WithOrder(s: seq<Category>, k: int): seq<Category> {
    if s == [] then []
    else (if s[0].sortOrder == k then [s[0]] else []) + WithOrder(s[1..], k)
  }

  lemma {:induction false} InsertCount(x: Category, s: seq<Category>)
    ensures multiset(Insert(x, s)) == multiset(s) + multiset{x}
    decreases |s|
  {
    if s != [] && x.sortOrder > s[0].sortOrder {
      InsertCount(x, s[1..]);
      assert s == [s[0]] + s[1..];
    }
  }

  lemma {:induction false} InsertSorted(x: Category, s: seq<Category>)
    requires SortedByOrder(s)
    ensures SortedByOrder(Insert(x, s))
    ensures Insert(x, s)[0] == x || Insert(x, s)[0] == s[0]
    decreases |s|
  {
    if s != [] && x.sortOrder > s[0].sortOrder {
      InsertSorted(x, s[1..]);
      var t := Insert(x, s[1..]);
      assert s[0].sortOrder <= t[0].sortOrder;
      assert forall j :: 0 <= j < |t| ==> t[0].sortOrder <= t[j].sortOrder;
    }
  }

  /** The sort returns the same categories, ordered by sort order. */
  lemma SortByOrderSpec(xs: seq<Category>)
    ensures SortedByOrder(SortByOrder(xs))
    ensures multiset(SortByOrder(xs)) == multiset(xs)
  {
    SortByOrderSorted(xs);
    SortByOrderCount(xs);
  }

  lemma {:induction false} SortByOrderSorted(xs: seq<Category>)
    ensures SortedByOrder(SortByOrder(xs))
    decreases |xs|
  {
    if xs != [] {
      SortByOrderSorted(xs[1..]);
      InsertSorted(xs[0], SortByOrder(xs[1..]));
    }
  }

  lemma {:induction false} SortByOrderCount(xs: seq<Category>)
    ensures multiset(SortByOrder(xs)) == multiset(xs)
    decreases |xs|
  {
    if xs != [] {
      SortByOrderCount(xs[1..]);
      InsertCount(xs[0], SortByOrder(xs[1..]));
      assert xs == [xs[0]] + xs[1..];
      assert multiset(xs) == multiset{xs[0]} + multiset(xs[1..]);
    }
  }

  lemma WithOrderCons(y: Category, s: seq<Category>, k: int)
    ensures WithOrder([y] + s, k) == (if y.sortOrder == k then [y] else []) + WithOrder(s, k)
  {
    assert ([y] + s)[1..] == s;
  }

  lemma {:induction false} InsertWithOrder(x: Category, s: seq<Category>, k: int)
    ensures WithOrder(Insert(x, s), k) == (if x.sortOrder == k then [x] else []) + WithOrder(s, k)
    decreases |s|
  {
    if s == [] {
      WithOrderCons(x, [], k);
    } else if x.sortOrder <= s[0].sortOrder {
      WithOrderCons(x, s, k);
    } else {
      var t := Insert(x, s[1..]);
      InsertWithOrder(x, s[1..], k);
      WithOrderCons(s[0], t, k);
      WithOrderCons(s[0], s[1..], k);
      assert [s[0]] + s[1..] == s;
      if x.sortOrder == k {
        assert WithOrder(Insert(x, s), k) == [x] + WithOrder(s[1..], k);
      } else {
        assert WithOrder(Insert(x, s), k) == WithOrder(s, k);
      }
    }
  }

  /** The sort is stable: categories with equal sort orders keep their
      relative order. */
  lemma {:induction false} SortStable(xs: seq<Category>, k: int)
    ensures WithOrder(SortByOrder(xs), k) == WithOrder(xs, k)
    decreases |xs|
  {
    if xs != [] {
      SortStable(xs[1..], k);
      InsertWithOrder(xs[0], SortByOrder(xs[1..]), k);
    }
  }

  /** A list already in sort order comes back unchanged. */
  lemma {:induction false} SortedIsFixed(xs: seq<Category>)
    requires SortedByOrder(xs)
    ensures SortByOrder(xs) == xs
    decreases |xs|
  {
    if xs != [] {
      SortedIsFixed(xs[1..]);
      assert xs == [xs[0]] + xs[1..];
    }
  }

  /** The active categories, in sort order. */
  function ActiveCategories(cs: seq<Category>): seq<Category> {
    SortByOrder(Actives(cs))
  }

  /** The active list holds every active category as often as the listing
      does and nothing else, in ascending sort order, ties in listing
      order. */
  lemma ActiveCategoriesSpec(cs: seq<Category>, k: int)
    ensures forall c :: c in ActiveCategories(cs) ==> c.status == Active
    ensures forall c :: multiset(ActiveCategories(cs))[c] == if c.status == Active then multiset(cs)[c] else 0
    ensures SortedByOrder(ActiveCategories(cs))
    ensures WithOrder(ActiveCategories(cs), k) == WithOrder(Actives(cs), k)
  {
    ActivesCount(cs);
    SortByOrderSpec(Actives(cs));
    SortStable(Actives(cs), k);
    forall c | c in ActiveCategories(cs) ensures c.status == Active {
      assert c in multiset(ActiveCategories(cs));
    }
  }

  /** getActiveCategories: on success with data, the same response with
      the active categories in sort order; otherwise the response as
      received. */
  function GetActiveCategories(r: Response): (a: Response)
    ensures !HasData(r) ==> a == r
    ensures HasData(r) ==> a.success == r.success && a.message == r.message
    ensures HasData(r) ==> a.data == Some(ActiveCategories(r.data.value))
  {
    if HasData(r) then r.(data := Some(ActiveCategories(r.data.value))) else r
  }

  // ---------------------------------------------------------------------
  // batchUpdateSortOrder.

  /** One entry of the sort-order update request. */
  datatype SortItem = SortItem(id: int, sortOrder: int)

  /** The request of batchUpdateSortOrder: the i-th category (counting from
      0) gets sort order i + 1. */
  function SortUpdates(cs: seq<Category>): (us: seq<SortItem>)
    ensures |us| == |cs|
    ensures forall i :: 0 <= i < |cs| ==> us[i].id == cs[i].id
  {
    seq(|cs|, i requires 0 <= i < |cs| => SortItem(cs[i].id, i + 1))
  }

  /** The sort orders sent are 1, 2, …, n: positive, strictly increasing,
      and distinct. */
  lemma SortUpdatesNumbering(cs: seq<Category>)
    ensures forall i :: 0 <= i < |cs| ==> SortUpdates(cs)[i].sortOrder == i + 1
    ensures forall i, j :: 0 <= i < j < |cs| ==> SortUpdates(cs)[i].sortOrder < SortUpdates(cs)[j].sortOrder
  {
  }

  /** The categories with the sort orders of the request applied, each at
      its position. */
  function Renumbered(cs: seq<Category>): seq<Category> {
    var us := SortUpdates(cs);
    seq(|cs|, i requires 0 <= i < |cs| => cs[i].(sortOrder := us[i].sortOrder))
  }

  lemma {:induction false} ActivesOfActive(cs: seq<Category>)
    requires forall i :: 0 <= i < |cs| ==> cs[i].status == Active
    ensures Actives(cs) == cs
    decreases |cs|
  {
    if cs != [] {
      ActivesOfActive(cs[1..]);
      assert cs == [cs[0]] + cs[1..];
    }
  }

  /** After a drag-and-drop of active categories, the renumbered list comes
      back from getActiveCategories in the order it was dropped in. */
  lemma RenumberedKeepsOrder(cs: seq<Category>)
    requires forall i :: 0 <= i < |cs| ==> cs[i].status == Active
    ensures ActiveCategories(Renumbered(cs)) == Renumbered(cs)
  {
    var rs := Renumbered(cs);
    ActivesOfActive(rs);
    SortedIsFixed(rs);
  }

  // ---------------------------------------------------------------------
  // checkNameAvailable.

  /** `category.name.toLowerCase() === name.toLowerCase() && category.id !==
      excludeId`; an absent `excludeId` differs from every id. */
  predicate Clashes(c: Category, name: string, excludeId: Option<int>) {
    Lower(c.name) == Lower(name) && (excludeId.None? || c.id != excludeId.value)
  }

  /** `find`: the first clashing category, if any. */
  function FindClash(cs: seq<Category>, name: string, excludeId: Option<int>): (r: Option<Category>)
    ensures r.None? <==> forall c :: c in cs ==> !Clashes(c, name, excludeId)
    ensures r.Some? ==> r.value in cs && Clashes(r.value, name, excludeId)
  {
    if cs == [] then None
    else if Clashes(cs[0], name, excludeId) then Some(cs[0])
    else FindClash(cs[1..], name, excludeId)
  }

  /** checkNameAvailable: unavailable when the listing throws; available
      when it answers without data; otherwise available exactly when no
      category clashes. */
  function CheckNameAvailable(fetched: Result<Response>, name: string, excludeId: Option<int>): (ok: bool)
    ensures fetched.Err? ==> !ok
    ensures fetched.Ok? && !HasData(fetched.value) ==> ok
    ensures fetched.Ok? && HasData(fetched.value) ==>
      (ok <==> forall c :: c in fetched.value.data.value ==> !Clashes(c, name, excludeId))
  {
    if fetched.Err? then false
    else if HasData(fetched.value) then FindClash(fetched.value.data.value, name, excludeId).None?
    else true
  }

  lemma LowerUpperChar(c: char)
    ensures LowerChar(UpperChar(c)) == LowerChar(c)
  {
  }

  /** The check ignores ASCII case: asking for the upper-cased name gives
      the same answer. */
  lemma NameCaseIgnored(fetched: Result<Response>, name: string, excludeId: Option<int>)
    ensures CheckNameAvailable(fetched, Upper(name), excludeId) == CheckNameAvailable(fetched, name, excludeId)
  {
    forall i | 0 <= i < |name| ensures Lower(Upper(name))[i] == Lower(name)[i] {
      LowerUpperChar(name[i]);
    }
    assert Lower(Upper(name)) == Lower(name);
  }

  // ---------------------------------------------------------------------
  // getCategoryOptions.

  /** An option of a category select (`{value, label, disabled}`). */
  datatype SelectOption = SelectOption(value: int, caption: string, disabled: bool)

  function OptionsOf(cs: seq<Category>): (os: seq<SelectOption>)
    ensures |os| == |cs|
    ensures forall i :: 0 <= i < |cs| ==> os[i] == SelectOption(cs[i].id, cs[i].name, cs[i].status != Active)
  {
    seq(|cs|, i requires 0 <= i < |cs| => SelectOption(cs[i].id, cs[i].name, cs[i].status != Active))
  }

  /** getCategoryOptions: one option per active category, in sort order,
      none of them disabled; no options when the listing throws or answers
      without data. */
  function CategoryOptions(fetched: Result<Response>): (os: seq<SelectOption>)
    ensures fetched.Err? || !HasData(fetched.value) ==> os == []
    ensures fetched.Ok? && HasData(fetched.value) ==>
      var active := ActiveCategories(fetched.value.data.value);
      && |os| == |active|
      && forall i :: 0 <= i < |os| ==> os[i] == SelectOption(active[i].id, active[i].name, false)
  {
    if fetched.Err? then []
    else
      var r := GetActiveCategories(fetched.value);
      if HasData(r) then
        ActiveCategoriesSpec(fetched.value.data.value, 0);
        OptionsOf(r.data.value)
      else []
  }
}
