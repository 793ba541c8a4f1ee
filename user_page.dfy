/** The public catalogue page (frontend/src/pages/UserPage.tsx): the
    formatting of what the two listings return, the category and search
    filter, the paging window that grows by twelve, the search suggestions,
    the download-count bump and the icon rules. The page state is a class
    whose fields are the React state the handlers replace; the HTTP calls
    and `window.open` are left to the caller, which passes in what they
    returned. */
module UserPage {
  import opened Wrappers
  import opened Text

  // ---------------------------------------------------------------------
  // What the page shows.

  /** A card of the catalogue. Every tool the page holds was built by the
      loader, so its tag list is always present. */
  datatype Tool = Tool(
    id: int,
    name: string,
    description: string,
    category: string,
    tags: seq<string>,
    icon: string,
    downloadUrl: Option<string>,
    downloadCount: Option<int>,
    fileType: Option<string>)

  /** An entry of the category sidebar. */
  datatype PageCategory = PageCategory(id: int, name: string, icon: string, count: int)

  // ---------------------------------------------------------------------
  // What the two listings return.

  /** The `tags` of a listed resource: a list, one text, or nothing. */
  datatype TagsValue = TagList(items: seq<string>) | TagText(text: string) | NoTags

  datatype ApiResource = ApiResource(
    id: int,
    title: string,
    description: Option<string>,
    categoryName: Option<string>,
    tags: TagsValue,
    downloadUrl: Option<string>,
    downloadCount: Option<int>,
    fileType: Option<string>)

  datatype ApiCategory = ApiCategory(id: int, name: string, icon: Option<string>, resourceCount: Option<int>)

  /** The envelope of a listing response. */
  datatype Listing<T> = Listing(success: bool, data: Option<seq<T>>)

  predicate HasData<T>(r: Listing<T>) {
    r.success && r.data.Some?
  }

  // ---------------------------------------------------------------------
  // The icon rules of getToolIcon.

  /** A rule fires when its field contains one of its keywords. */
  datatype Rule = Rule(keywords: seq<string>, icon: string)

  const DefaultIcon: string := "🔧"


  /** Tried first, on the lower-cased name. */
  const NameRules: seq<Rule> := [
    Rule(["visual studio code", "vscode"], "💻"),
    Rule(["photoshop", "ps"], "🎨"),
    Rule(["office", "word", "excel"], "📊"),
    Rule(["chrome", "firefox", "browser"], "🌐"),
    Rule(["git", "github"], "🔧"),
    Rule(["node", "npm"], "⚡"),
    Rule(["react", "vue", "angular"], "⚛️"),
    Rule(["python"], "🐍"),
    Rule(["java"], "☕"),
    Rule(["docker"], "🐳"),
    Rule(["mysql", "database"], "🗄️"),
    Rule(["redis"], "🔴"),
    Rule(["nginx"], "🌐"),
    Rule(["webpack", "vite"], "📦"),
    Rule(["typescript"], "🔷"),
    Rule(["sass", "scss"], "💄"),
    Rule(["figma", "sketch"], "🎨"),
    Rule(["postman"], "📮"),
    Rule(["slack", "discord"], "💬"),
    Rule(["zoom", "teams"], "📹"),
    Rule(["calculator"], "🧮"),
    Rule(["calendar"], "📅"),
    Rule(["note", "markdown"], "📝"),
    Rule(["pdf"], "📄"),
    Rule(["zip", "rar"], "📦"),
    Rule(["video", "movie"], "🎬"),
    Rule(["audio", "music"], "🎵"),
    Rule(["image", "photo"], "🖼️"),
    Rule(["game"], "🎮"),
    Rule(["security", "antivirus"], "🛡️"),
    Rule(["backup"], "💾"),
    Rule(["monitor", "system"], "⚙️"),
    Rule(["network"], "🌐"),
    Rule(["terminal", "cmd"], "💻"),
    Rule(["editor", "ide"], "📝"),
    Rule(["compiler"], "⚙️"),
    Rule(["server"], "🖥️"),
    Rule(["api"], "🔌"),
    Rule(["test", "debug"], "🐛"),
    Rule(["deploy"], "🚀"),
    Rule(["analytics"], "📈"),
    Rule(["chart", "graph"], "📊"),
    Rule(["mail", "email"], "📧"),
    Rule(["file", "folder"], "📁"),
    Rule(["search"], "🔍"),
    Rule(["download"], "⬇️"),
    Rule(["upload"], "⬆️"),
    Rule(["sync"], "🔄"),
    Rule(["cloud"], "☁️"),
    Rule(["mobile", "app"], "📱"),
    Rule(["web"], "🌐"),
    Rule(["desktop"], "🖥️")
  ]
  /** Tried next, on the lower-cased category name. */
  const CategoryRules: seq<Rule> := [
    Rule(["开发", "development"], "🛠️"),
    Rule(["设计", "design"], "🎨"),
    Rule(["办公", "office"], "📊"),
    Rule(["学习", "education"], "📚"),
    Rule(["多媒体", "media"], "🎵"),
    Rule(["系统", "system"], "⚙️"),
    Rule(["数据", "data"], "📈"),
    Rule(["文件", "file"], "📁"),
    Rule(["文本", "text"], "📝"),
    Rule(["时间", "time"], "⏰"),
    Rule(["生活", "life"], "🏠"),
    Rule(["网络", "network"], "🌐"),
    Rule(["计算", "calculator"], "🧮"),
    Rule(["创意", "creative"], "🎭"),
    Rule(["通用", "general"], "🔧")
  ]
  /** Tried last, on the lower-cased file type. */
  const FileTypeRules: seq<Rule> := [
    Rule(["html"], "🌐"),
    Rule(["javascript", "js"], "⚡"),
    Rule(["css"], "🎨"),
    Rule(["python", "py"], "🐍"),
    Rule(["java"], "☕"),
    Rule(["cpp", "c++"], "⚙️"),
    Rule(["php"], "🐘"),
    Rule(["ruby"], "💎"),
    Rule(["go"], "🐹"),
    Rule(["rust"], "🦀"),
    Rule(["swift"], "🦉"),
    Rule(["kotlin"], "🎯"),
    Rule(["image", "png", "jpg"], "🖼️"),
    Rule(["video", "mp4", "avi"], "🎬"),
    Rule(["audio", "mp3", "wav"], "🎵"),
    Rule(["pdf"], "📄"),
    Rule(["doc", "docx"], "📝"),
    Rule(["xls", "xlsx"], "📊"),
    Rule(["ppt", "pptx"], "📽️"),
    Rule(["zip", "rar", "7z"], "📦"),
    Rule(["exe", "msi"], "⚙️"),
    Rule(["apk"], "📱"),
    Rule(["dmg"], "🍎"),
    Rule(["deb", "rpm"], "🐧")
  ]

  predicate Fires(r: Rule, text: string) {
    exists k :: 0 <= k < |r.keywords| && Contains(text, r.keywords[k])
  }

  /** The icon of the first rule that fires on `text`. */
  function FirstIcon(rules: seq<Rule>, text: string): (r: Option<string>)
    ensures r.None? <==> forall i :: 0 <= i < |rules| ==> !Fires(rules[i], text)
  {
    if rules == [] then None
    else if Fires(rules[0], text) then Some(rules[0].icon)
    else FirstIcon(rules[1..], text)
  }

  /** The argument of getToolIcon: a text, or a tool whose name, category
      and file type may be missing. */
  datatype IconArg = Label(text: string) | Described(name: Option<string>, category: Option<string>, fileType: Option<string>)

  /** `field?.toLowerCase() || ''`. */
  function FieldText(o: Option<string>): string {
    if o.Some? then Lower(o.value) else ""
  }

  /** getToolIcon: the default icon for a text; otherwise the name rules,
      then the category rules, then the file-type rules, each on its own
      lower-cased field, and the default icon when none fires. */
  function GetToolIcon(arg: IconArg): string {
    match arg
    case Label(_) => DefaultIcon
    case Described(name, category, fileType) =>
      var byName := FirstIcon(NameRules, FieldText(name));
      if byName.Some? then byName.value
      else
        var byCategory := FirstIcon(CategoryRules, FieldText(category));
        if byCategory.Some? then byCategory.value
        else FirstIcon(FileTypeRules, FieldText(fileType)).GetOr(DefaultIcon)
  }

  /** Each rule paired with the text it is tried on. */
  function Against(rules: seq<Rule>, text: string): (ps: seq<(Rule, string)>)
    ensures |ps| == |rules|
    ensures forall i :: 0 <= i < |rules| ==> ps[i] == (rules[i], text)
  {
    seq(|rules|, i requires 0 <= i < |rules| => (rules[i], text))
  }

  /** The reference reading of the rule chain: one list of rules, each
      tried on its own text, the first that fires deciding. */
  function FirstFiring(ps: seq<(Rule, string)>): Option<string> {
    if ps == [] then None
    else if Fires(ps[0].0, ps[0].1) then Some(ps[0].0.icon)
    else FirstFiring(ps[1..])
  }

  lemma {:induction false} FirstFiringAgainst(rules: seq<Rule>, text: string)
    ensures FirstFiring(Against(rules, text)) == FirstIcon(rules, text)
    decreases |rules|
  {
    if rules != [] {
      FirstFiringAgainst(rules[1..], text);
      assert Against(rules, text)[1..] == Against(rules[1..], text);
    }
  }

  lemma {:induction false} FirstFiringAppend(a: seq<(Rule, string)>, b: seq<(Rule, string)>)
    ensures FirstFiring(a + b) == if FirstFiring(a).Some? then FirstFiring(a) else FirstFiring(b)
    decreases |a|
  {
    if a == [] {
      assert a + b == b;
    } else {
      FirstFiringAppend(a[1..], b);
      assert (a + b)[1..] == a[1..] + b;
    }
  }

  /** Three rule lists tried one after the other, each on its own text,
      are one list tried in order. */
  lemma ChainIsFirstFiring(a: seq<Rule>, x: string, b: seq<Rule>, y: string, c: seq<Rule>, z: string)
    ensures FirstFiring(Against(a, x) + Against(b, y) + Against(c, z))
      == if FirstIcon(a, x).Some? then FirstIcon(a, x)
         else if FirstIcon(b, y).Some? then FirstIcon(b, y)
         else FirstIcon(c, z)
  {
    FirstFiringAgainst(a, x);
    FirstFiringAgainst(b, y);
    FirstFiringAgainst(c, z);
    FirstFiringAppend(Against(a, x), Against(b, y));
    FirstFiringAppend(Against(a, x) + Against(b, y), Against(c, z));
  }

  /** getToolIcon returns the icon of the first rule that fires in the
      whole chain (name rules, then category rules, then file-type rules),
      and the default icon when none fires or the argument is a text. */
  lemma GetToolIconIsFirstFiring(arg: IconArg)
    ensures arg.Label? ==> GetToolIcon(arg) == DefaultIcon
    ensures arg.Described? ==>
      var chain := Against(NameRules, FieldText(arg.name)) + Against(CategoryRules, FieldText(arg.category))
                   + Against(FileTypeRules, FieldText(arg.fileType));
      GetToolIcon(arg) == FirstFiring(chain).GetOr(DefaultIcon)
  {
    if arg.Described? {
      ChainIsFirstFiring(NameRules, FieldText(arg.name), CategoryRules, FieldText(arg.category),
                         FileTypeRules, FieldText(arg.fileType));
    }
  }

  // ---------------------------------------------------------------------
  // loadData: formatting what the listings return.

  const AllCategoriesName: string := "全部"
  const FolderIcon: string := "📁"
  const OtherCategory: string := "其他"

  /** The first sidebar entry, standing for every category. */
  function AllEntry(count: int): PageCategory {
    PageCategory(0, AllCategoriesName, FolderIcon, count)
  }

  /** `Array.isArray(tags) ? tags : (tags ? [tags] : [])`. */
  function NormalizeTags(t: TagsValue): (tags: seq<string>)
    ensures t.TagList? ==> tags == t.items
    ensures t.TagText? && t.text != "" ==> tags == [t.text]
    ensures t.NoTags? || (t.TagText? && t.text == "") ==> tags == []
  {
    match t
    case TagList(items) => items
    case TagText(s) => if s != "" then [s] else []
    case NoTags => []
  }

  /** `x || fallback` on optional text. */
  function TextOr(o: Option<string>, fallback: string): string {
    if o.Some? && o.value != "" then o.value else fallback
  }

  function FormatTool(r: ApiResource): Tool {
    Tool(r.id, r.title, TextOr(r.description, ""), TextOr(r.categoryName, OtherCategory),
         NormalizeTags(r.tags),
         GetToolIcon(Described(Some(r.title), Some(TextOr(r.categoryName, "")), r.fileType)),
         r.downloadUrl, r.downloadCount, r.fileType)
  }

  function FormatCategory(c: ApiCategory): PageCategory {
    PageCategory(c.id, c.name, TextOr(c.icon, FolderIcon), if c.resourceCount.Some? then c.resourceCount.value else 0)
  }

  /** The sidebar after a load: the all-categories entry (counting the
      loaded resources, whether or not that listing succeeded), then one
      entry per listed category; only the all-categories entry, counting
      nothing, when the category listing has no data. */
  function LoadedCategories(cats: Listing<ApiCategory>, resources: Listing<ApiResource>): seq<PageCategory> {
    if HasData(cats) then
      var all := AllEntry(if resources.data.Some? then |resources.data.value| else 0);
      var cs := cats.data.value;
      [all] + seq(|cs|, i requires 0 <= i < |cs| => FormatCategory(cs[i]))
    else [AllEntry(0)]
  }

  function LoadedTools(resources: Listing<ApiResource>): seq<Tool> {
    if HasData(resources) then
      var rs := resources.data.value;
      seq(|rs|, i requires 0 <= i < |rs| => FormatTool(rs[i]))
    else []
  }

  /** The state a load leaves: both listings are awaited together, so
      either one throwing leaves no tools and the bare all-categories
      entry. */
  function Loaded(cats: Result<Listing<ApiCategory>>, resources: Result<Listing<ApiResource>>)
    : (seq<Tool>, seq<PageCategory>)
  {
    if cats.Err? || resources.Err? then ([], [AllEntry(0)])
    else (LoadedTools(resources.value), LoadedCategories(cats.value, resources.value))
  }

  /** The sidebar always starts with the all-categories entry; it counts
      the loaded resources when both listings answered with data and
      nothing when either failed; one card per loaded resource. */
  lemma LoadedShape(cats: Result<Listing<ApiCategory>>, resources: Result<Listing<ApiResource>>)
    ensures |Loaded(cats, resources).1| >= 1
    ensures Loaded(cats, resources).1[0].id == 0 && Loaded(cats, resources).1[0].name == AllCategoriesName
    ensures cats.Ok? && resources.Ok? && HasData(cats.value) && HasData(resources.value) ==>
      && Loaded(cats, resources).1[0].count == |resources.value.data.value|
      && |Loaded(cats, resources).1| == 1 + |cats.value.data.value|
      && |Loaded(cats, resources).0| == |resources.value.data.value|
    ensures cats.Err? || resources.Err? ==>
      Loaded(cats, resources).1 == [AllEntry(0)] && Loaded(cats, resources).0 == []
  {
  }

  /** Every loaded card carries a list of tags: the list given, one text as
      a one-tag list, and no tags otherwise. */
  lemma LoadedTags(resources: Listing<ApiResource>, i: int)
    requires HasData(resources) && 0 <= i < |resources.data.value|
    ensures var r := resources.data.value[i];
      LoadedTools(resources)[i].tags == match r.tags
        case TagList(items) => items
        case TagText(s) => if s == "" then [] else [s]
        case NoTags => []
  {
  }

  // ---------------------------------------------------------------------
  // filteredTools.

  /** `s.toLowerCase().includes(term.toLowerCase())`. */
  predicate MatchesText(s: string, term: string) {
    Contains(Lower(s), Lower(term))
  }

  /** `categories.find(c => c.id === id)`. */
  function FindCategory(cs: seq<PageCategory>, id: int): (r: Option<PageCategory>)
    ensures r.None? <==> forall i :: 0 <= i < |cs| ==> cs[i].id != id
    ensures r.Some? ==> r.value in cs && r.value.id == id
  {
    if cs == [] then None
    else if cs[0].id == id then Some(cs[0])
    else FindCategory(cs[1..], id)
  }

  /** Category 0 shows everything; another id shows the tools whose
      category is that entry's name, and nothing when no entry has it. */
  predicate MatchesCategory(t: Tool, cs: seq<PageCategory>, selected: int) {
    selected == 0 || (FindCategory(cs, selected).Some? && t.category == FindCategory(cs, selected).value.name)
  }

  /** An empty term matches every tool; otherwise the name, the
      description or one of the tags must contain it, ignoring ASCII case. */
  predicate MatchesSearch(t: Tool, term: string) {
    term == [] || MatchesText(t.name, term) || MatchesText(t.description, term)
    || exists k :: 0 <= k < |t.tags| && MatchesText(t.tags[k], term)
  }

  predicate Shown(t: Tool, cs: seq<PageCategory>, selected: int, term: string) {
    MatchesCategory(t, cs, selected) && MatchesSearch(t, term)
  }

  /** filteredTools. */
  function Filtered(ts: seq<Tool>, cs: seq<PageCategory>, selected: int, term: string): seq<Tool> {
    if ts == [] then []
    else (if Shown(ts[0], cs, selected, term) then [ts[0]] else []) + Filtered(ts[1..], cs, selected, term)
  }

  /** The filter keeps exactly the tools that match both conditions. */
  lemma {:induction false} FilteredMembers(ts: seq<Tool>, cs: seq<PageCategory>, selected: int, term: string)
    ensures forall t :: t in Filtered(ts, cs, selected, term) <==> t in ts && Shown(t, cs, selected, term)
    ensures |Filtered(ts, cs, selected, term)| <= |ts|
    decreases |ts|
  {
    if ts != [] {
      FilteredMembers(ts[1..], cs, selected, term);
      assert ts == [ts[0]] + ts[1..];
    }
  }

  /** The filter keeps the order of the tools: filtering two lists one
      after the other is filtering each. */
  lemma {:induction false} FilteredAppend(a: seq<Tool>, b: seq<Tool>, cs: seq<PageCategory>, selected: int, term: string)
    ensures Filtered(a + b, cs, selected, term) == Filtered(a, cs, selected, term) + Filtered(b, cs, selected, term)
    decreases |a|
  {
    if a == [] {
      assert a + b == b;
    } else {
      FilteredAppend(a[1..], b, cs, selected, term);
      assert (a + b)[1..] == a[1..] + b;
      AppendAssoc(if Shown(a[0], cs, selected, term) then [a[0]] else [], Filtered(a[1..], cs, selected, term),
                  Filtered(b, cs, selected, term));
    }
  }

  /** With category 0 and no search term every tool is shown. */
  lemma {:induction false} UnfilteredShowsAll(ts: seq<Tool>, cs: seq<PageCategory>)
    ensures Filtered(ts, cs, 0, "") == ts
    decreases |ts|
  {
    if ts != [] {
      UnfilteredShowsAll(ts[1..], cs);
      assert ts == [ts[0]] + ts[1..];
    }
  }

  // ---------------------------------------------------------------------
  // visibleTools and the load-more button.

  const PageSize: nat := 12

  function Min(a: int, b: int): int {
    if a <= b then a else b
  }

  /** `filteredTools.slice(0, count)`. */
  function Visible(f: seq<Tool>, count: nat): (v: seq<Tool>)
    ensures |v| == Min(count, |f|) && v == f[..|v|]
  {
    f[..Min(count, |f|)]
  }

  /** The load-more button: shown while fewer are visible than filtered,
      with the number still hidden. */
  predicate ShowLoadMore(f: seq<Tool>, count: nat) {
    count < |f|
  }

  function Remaining(f: seq<Tool>, count: nat): int {
    |f| - count
  }

  /** The button shows exactly when some filtered tool is not visible, and
      then counts exactly the hidden ones; one more page shows the next
      twelve (or the rest). */
  lemma LoadMoreShape(f: seq<Tool>, count: nat)
    ensures ShowLoadMore(f, count) <==> |Visible(f, count)| < |f|
    ensures ShowLoadMore(f, count) ==> Remaining(f, count) == |f| - |Visible(f, count)| > 0
    ensures Visible(f, count + PageSize) == Visible(f, count) + f[Min(count, |f|)..Min(count + PageSize, |f|)]
  {
    var a, b := Min(count, |f|), Min(count + PageSize, |f|);
    assert f[..b] == f[..a] + f[a..b];
  }

  // ---------------------------------------------------------------------
  // Search suggestions.

  /** The tags of one tool that contain the term, in order. */
  function MatchingTags(tags: seq<string>, term: string): seq<string> {
    if tags == [] then []
    else MatchingTags(tags[..|tags| - 1], term) + (if MatchesText(tags[|tags| - 1], term) then [tags[|tags| - 1]] else [])
  }

  /** What one tool offers: its name when it matches, then its matching tags. */
  function ToolCandidates(t: Tool, term: string): seq<string> {
    (if MatchesText(t.name, term) then [t.name] else []) + MatchingTags(t.tags, term)
  }

  function Candidates(ts: seq<Tool>, term: string): seq<string> {
    if ts == [] then []
    else Candidates(ts[..|ts| - 1], term) + ToolCandidates(ts[|ts| - 1], term)
  }

  /** `Set.add`: a value already present keeps its place. */
  function Add(acc: seq<string>, x: string): seq<string> {
    if x in acc then acc else acc + [x]
  }

  /** The values of a `Set` filled from `xs`, in insertion order. */
  function Dedup(xs: seq<string>): seq<string> {
    if xs == [] then [] else Add(Dedup(xs[..|xs| - 1]), xs[|xs| - 1])
  }

  predicate NoDuplicates(s: seq<string>) {
    forall i, j :: 0 <= i < j < |s| ==> s[i] != s[j]
  }

  /** The suggestions for a term: none for a blank term; otherwise the first
      five distinct matching names and tags in the order met. */
  function Suggestions(ts: seq<Tool>, term: string): seq<string> {
    if Trim(term) == [] then []
    else
      var d := Dedup(Candidates(ts, term));
      d[..Min(5, |d|)]
  }

  lemma DedupSnoc(xs: seq<string>, x: string)
    ensures Dedup(xs + [x]) == Add(Dedup(xs), x)
  {
    assert (xs + [x])[..|xs|] == xs;
  }

  /** The set holds each value once, exactly the values met. */
  lemma {:induction false} DedupSpec(xs: seq<string>)
    ensures NoDuplicates(Dedup(xs))
    ensures forall x :: x in Dedup(xs) <==> x in xs
    decreases |xs|
  {
    if xs != [] {
      var init := xs[..|xs| - 1];
      DedupSpec(init);
      assert xs == init + [xs[|xs| - 1]];
    }
  }

  /** Values added later never move the earlier ones: first-seen order. */
  lemma {:induction false} DedupPrefix(xs: seq<string>, ys: seq<string>)
    ensures Dedup(xs) <= Dedup(xs + ys)
    decreases |ys|
  {
    if ys == [] {
      assert xs + ys == xs;
    } else {
      var init := ys[..|ys| - 1];
      DedupPrefix(xs, init);
      AppendAssoc(xs, init, [ys[|ys| - 1]]);
      assert init + [ys[|ys| - 1]] == ys;
      DedupSnoc(xs + init, ys[|ys| - 1]);
    }
  }

  lemma {:induction false} MatchingTagsSpec(tags: seq<string>, term: string)
    ensures forall x :: x in MatchingTags(tags, term) <==> x in tags && MatchesText(x, term)
    decreases |tags|
  {
    if tags != [] {
      MatchingTagsSpec(tags[..|tags| - 1], term);
      assert tags == tags[..|tags| - 1] + [tags[|tags| - 1]];
    }
  }

  /** `x` is the name or one of the tags of some tool of `ts`. */
  predicate Offered(ts: seq<Tool>, x: string) {
    exists i :: 0 <= i < |ts| && (x == ts[i].name || x in ts[i].tags)
  }

  lemma ToolCandidatesMember(t: Tool, term: string, x: string)
    ensures x in ToolCandidates(t, term) <==> MatchesText(x, term) && (x == t.name || x in t.tags)
  {
    MatchingTagsSpec(t.tags, term);
  }

  /** A value is a candidate exactly when it is the name or a tag of some
      tool and contains the term. */
  lemma {:induction false} CandidatesMember(ts: seq<Tool>, term: string, x: string)
    ensures x in Candidates(ts, term) <==> MatchesText(x, term) && Offered(ts, x)
    decreases |ts|
  {
    if ts != [] {
      var init, last := ts[..|ts| - 1], ts[|ts| - 1];
      CandidatesMember(init, term, x);
      ToolCandidatesMember(last, term, x);
      if Offered(init, x) {
        var i :| 0 <= i < |init| && (x == init[i].name || x in init[i].tags);
        assert ts[i] == init[i];
      }
      if Offered(ts, x) && !(x == last.name || x in last.tags) {
        var i :| 0 <= i < |ts| && (x == ts[i].name || x in ts[i].tags);
        assert init[i] == ts[i];
      }
    }
  }

  /** The first five distinct values of `xs`: no more than five, none
      twice, first-seen order, and all of them when there are few. */
  lemma FirstFive(xs: seq<string>)
    ensures var d := Dedup(xs); var s := d[..Min(5, |d|)];
      |s| <= 5 && NoDuplicates(s) && s <= d && (|d| <= 5 ==> forall x :: x in xs ==> x in s)
  {
    var d := Dedup(xs);
    DedupSpec(xs);
    if |d| <= 5 {
      assert d[..Min(5, |d|)] == d;
    }
  }

  /** Suggestions: none for a blank term; otherwise at most five, no value
      twice, the first of the distinct candidates in first-seen order; and
      when at most five values match, all of them. */
  lemma SuggestionsShape(ts: seq<Tool>, term: string)
    ensures IsBlank(term) ==> Suggestions(ts, term) == []
    ensures |Suggestions(ts, term)| <= 5
    ensures NoDuplicates(Suggestions(ts, term))
    ensures !IsBlank(term) ==> Suggestions(ts, term) <= Dedup(Candidates(ts, term))
    ensures !IsBlank(term) && |Dedup(Candidates(ts, term))| <= 5 ==>
      forall x :: x in Candidates(ts, term) ==> x in Suggestions(ts, term)
  {
    FirstFive(Candidates(ts, term));
  }

  /** Every suggestion is the name or a tag of some tool and contains the term. */
  lemma SuggestionsSound(ts: seq<Tool>, term: string, x: string)
    requires x in Suggestions(ts, term)
    ensures MatchesText(x, term) && Offered(ts, x)
  {
    var d := Dedup(Candidates(ts, term));
    DedupSpec(Candidates(ts, term));
    var k :| 0 <= k < |Suggestions(ts, term)| && Suggestions(ts, term)[k] == x;
    assert d[k] == x;
    CandidatesMember(ts, term, x);
  }

  /** One step of the set-filling loop: the matching tags of one tool. */
  method AddMatchingTags(found: seq<string>, ghost met: seq<string>, tags: seq<string>, term: string)
    returns (r: seq<string>)
    requires found == Dedup(met)
    ensures r == Dedup(met + MatchingTags(tags, term))
  {
    r := found;
    var j := 0;
    assert met + MatchingTags(tags[..0], term) == met;
    while j < |tags|
      invariant 0 <= j <= |tags|
      invariant r == Dedup(met + MatchingTags(tags[..j], term))
    {
      assert tags[..j + 1][..j] == tags[..j];
      if MatchesText(tags[j], term) {
        DedupSnoc(met + MatchingTags(tags[..j], term), tags[j]);
        AppendAssoc(met, MatchingTags(tags[..j], term), [tags[j]]);
        r := Add(r, tags[j]);
      } else {
        assert MatchingTags(tags[..j + 1], term) == MatchingTags(tags[..j], term);
      }
      j := j + 1;
    }
    assert tags[..j] == tags;
  }

  /** One tool's turn: its name when it matches, then its matching tags. */
  method AddToolCandidates(found: seq<string>, ghost met: seq<string>, t: Tool, term: string)
    returns (r: seq<string>)
    requires found == Dedup(met)
    ensures r == Dedup(met + ToolCandidates(t, term))
  {
    var name := if MatchesText(t.name, term) then [t.name] else [];
    r := found;
    if MatchesText(t.name, term) {
      DedupSnoc(met, t.name);
      r := Add(r, t.name);
    } else {
      assert met + name == met;
    }
    r := AddMatchingTags(r, met + name, t.tags, term);
    AppendAssoc(met, name, MatchingTags(t.tags, term));
  }

  // ---------------------------------------------------------------------
  // handleToolDownload.

  /** `{ ...t, download_count: (t.download_count || 0) + 1 }` for the tool
      with the id, the others as they are. */
  function Bump(t: Tool, id: int): Tool {
    if t.id == id then t.(downloadCount := Some(t.downloadCount.GetOr(0) + 1)) else t
  }

  function Bumped(ts: seq<Tool>, id: int): (r: seq<Tool>)
    ensures |r| == |ts|
    ensures forall i :: 0 <= i < |ts| ==> r[i] == Bump(ts[i], id)
  {
    seq(|ts|, i requires 0 <= i < |ts| => Bump(ts[i], id))
  }

  /** The downloads counted over all cards. */
  function TotalDownloads(ts: seq<Tool>): int {
    if ts == [] then 0 else TotalDownloads(ts[..|ts| - 1]) + ts[|ts| - 1].downloadCount.GetOr(0)
  }

  function CountId(ts: seq<Tool>, id: int): nat {
    if ts == [] then 0 else CountId(ts[..|ts| - 1], id) + (if ts[|ts| - 1].id == id then 1 else 0)
  }

  /** The bump adds one download per card with the id and nothing else,
      and changes no card's identity or text. */
  lemma {:induction false} BumpedTotals(ts: seq<Tool>, id: int)
    ensures TotalDownloads(Bumped(ts, id)) == TotalDownloads(ts) + CountId(ts, id)
    ensures forall i :: 0 <= i < |ts| ==> Bumped(ts, id)[i].(downloadCount := ts[i].downloadCount) == ts[i]
    decreases |ts|
  {
    if ts != [] {
      var init := ts[..|ts| - 1];
      BumpedTotals(init, id);
      assert Bumped(ts, id)[..|ts| - 1] == Bumped(init, id);
    }
  }

  // ---------------------------------------------------------------------
  // The page state.

  class Page {
    var tools: seq<Tool>
    var categories: seq<PageCategory>
    var selectedCategory: int
    var debouncedTerm: string
    var visibleToolsCount: nat
    var searchSuggestions: seq<string>

    /** The count of visible cards starts at one page and only grows by pages. */
    predicate Valid()
      reads this
    {
      visibleToolsCount >= PageSize && visibleToolsCount % PageSize == 0
    }

    /** The initial state: no tools, category 0, no term, one page. */
    constructor ()
      ensures Valid()
      ensures tools == [] && categories == [] && selectedCategory == 0 && debouncedTerm == []
      ensures visibleToolsCount == PageSize && searchSuggestions == []
    {
      tools, categories, selectedCategory, debouncedTerm := [], [], 0, [];
      visibleToolsCount, searchSuggestions := PageSize, [];
    }

    function FilteredTools(): seq<Tool>
      reads this
    {
      Filtered(tools, categories, selectedCategory, debouncedTerm)
    }

    function VisibleTools(): seq<Tool>
      reads this
    {
      Visible(FilteredTools(), visibleToolsCount)
    }

    /** loadData. */
    method LoadData(cats: Result<Listing<ApiCategory>>, resources: Result<Listing<ApiResource>>)
      modifies this`tools, this`categories
      ensures (tools, categories) == Loaded(cats, resources)
    {
      if cats.Err? || resources.Err? {
        tools, categories := [], [AllEntry(0)];
        return;
      }
      categories := LoadedCategories(cats.value, resources.value);
      tools := LoadedTools(resources.value);
    }

    /** loadMoreTools: one more page. */
    method LoadMoreTools()
      requires Valid()
      modifies this`visibleToolsCount
      ensures Valid()
      ensures visibleToolsCount == old(visibleToolsCount) + PageSize
    {
      visibleToolsCount := visibleToolsCount + PageSize;
    }

    /** handleToolDownload: when the tool has a download URL and the
        increment request succeeded (`counted`), every card with its id
        gets one more download; otherwise nothing changes. */
    method HandleToolDownload(tool: Tool, counted: bool)
      modifies this`tools
      ensures tool.downloadUrl.Some? && tool.downloadUrl.value != "" && counted ==> tools == Bumped(old(tools), tool.id)
      ensures !(tool.downloadUrl.Some? && tool.downloadUrl.value != "" && counted) ==> tools == old(tools)
    {
      if tool.downloadUrl.None? || tool.downloadUrl.value == "" || !counted {
        return;
      }
      var next: seq<Tool> := [];
      var i := 0;
      while i < |tools|
        invariant 0 <= i <= |tools|
        invariant |next| == i
        invariant forall k :: 0 <= k < i ==> next[k] == Bump(tools[k], tool.id)
      {
        var t := tools[i];
        next := next + [if t.id == tool.id then t.(downloadCount := Some(t.downloadCount.GetOr(0) + 1)) else t];
        i := i + 1;
      }
      tools := next;
    }

    /** updateSearchSuggestions: fills a set with the matching names and
        tags, tool by tool, and keeps the first five. */
    method UpdateSearchSuggestions(term: string)
      modifies this`searchSuggestions
      ensures searchSuggestions == Suggestions(tools, term)
    {
      if IsBlank(term) {
        searchSuggestions := [];
        return;
      }
      var found: seq<string> := [];
      var i := 0;
      while i < |tools|
        invariant 0 <= i <= |tools|
        invariant found == Dedup(Candidates(tools[..i], term))
      {
        found := AddToolCandidates(found, Candidates(tools[..i], term), tools[i], term);
        assert tools[..i + 1][..i] == tools[..i];
        assert Candidates(tools[..i + 1], term) == Candidates(tools[..i], term) + ToolCandidates(tools[i], term);
        i := i + 1;
      }
      assert tools[..i] == tools;
      searchSuggestions := found[..Min(5, |found|)];
    }
  }
}
