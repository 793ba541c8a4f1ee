/** The edit dialog of a tool (frontend/src/components/EditToolModal.tsx):
    the form filled from the tool, the change handler, the validation that
    decides whether a request is sent, the payload with its trimmed fields
    and normalised tag text, and the tool rebuilt from the answer. The
    request itself is left to the caller, which passes in how it ended. */
module EditToolModal {
  import opened Wrappers
  import opened Text
  import opened UserPage

  // ---------------------------------------------------------------------
  // The tool being edited and the form.

  /** The tool the dialog edits. */
  datatype EditedTool = EditedTool(
    id: int,
    name: string,
    description: string,
    category: string,
    tags: seq<string>,
    downloadUrl: Option<string>,
    downloadPassword: Option<string>)

  /** The form state; `categoryId` holds the number of the chosen option. */
  datatype FormData = FormData(
    title: string,
    description: string,
    categoryId: int,
    downloadUrl: string,
    downloadPassword: string,
    tags: string)

  /** The names of the form's fields, which also key its errors. */
  datatype Field = Title | Description | CategoryId | DownloadUrl | DownloadPassword | Tags

  /** What a change event carries: a text typed into an input, or the
      option chosen in the category select. */
  datatype Input = TextInput(field: Field, text: string) | CategorySelect(optionId: int)

  const EmptyForm: FormData := FormData("", "", 0, "", "", "")

  // ---------------------------------------------------------------------
  // Initialisation.

  /** `categories.find(cat => cat.name === name)?.id || 0`. */
  function CategoryIdOf(cats: seq<PageCategory>, name: string): (id: int)
    ensures id != 0 ==> exists k :: 0 <= k < |cats| && cats[k].name == name && cats[k].id == id
    ensures (forall k :: 0 <= k < |cats| ==> cats[k].name != name) ==> id == 0
  {
    if cats == [] then 0
    else if cats[0].name == name then cats[0].id
    else CategoryIdOf(cats[1..], name)
  }

  /** The form filled from a tool: its texts, the id of the category with
      its category's name (0 when none has it), and its tags joined by a
      comma and a space. */
  function InitialForm(tool: EditedTool, cats: seq<PageCategory>): FormData {
    FormData(tool.name, tool.description, CategoryIdOf(cats, tool.category),
             tool.downloadUrl.GetOr(""), tool.downloadPassword.GetOr(""), Join(tool.tags, ", "))
  }

  // ---------------------------------------------------------------------
  // Change events.

  /** The form after one change event: only the named field is replaced. */
  function Changed(f: FormData, input: Input): FormData {
    match input
    case CategorySelect(id) => f.(categoryId := id)
    case TextInput(field, v) =>
      match field
      case Title => f.(title := v)
      case Description => f.(description := v)
      case CategoryId => f
      case DownloadUrl => f.(downloadUrl := v)
      case DownloadPassword => f.(downloadPassword := v)
      case Tags => f.(tags := v)
  }

  function KeyOf(input: Input): Field {
    if input.CategorySelect? then CategoryId else input.field
  }

  /** The errors after a change: the changed field's message, when it has a
      non-empty one, becomes empty; the others stay. */
  function Cleared(errors: map<Field, string>, key: Field): (r: map<Field, string>)
    ensures r.Keys == errors.Keys
    ensures forall k :: k in errors && k != key ==> r[k] == errors[k]
    ensures key in errors ==> r[key] == ""
  {
    if key in errors && errors[key] != "" then errors[key := ""] else errors
  }

  /** A text change touches only its own field, and a select only the
      category; the other fields keep their values. */
  lemma ChangeIsLocal(f: FormData, input: Input)
    requires !(input.TextInput? && input.field == CategoryId)
    ensures KeyOf(input) != Title ==> Changed(f, input).title == f.title
    ensures KeyOf(input) != Description ==> Changed(f, input).description == f.description
    ensures KeyOf(input) != CategoryId ==> Changed(f, input).categoryId == f.categoryId
    ensures KeyOf(input) != DownloadUrl ==> Changed(f, input).downloadUrl == f.downloadUrl
    ensures KeyOf(input) != DownloadPassword ==> Changed(f, input).downloadPassword == f.downloadPassword
    ensures KeyOf(input) != Tags ==> Changed(f, input).tags == f.tags
    ensures input.CategorySelect? ==> Changed(f, input).categoryId == input.optionId
    ensures input.TextInput? && input.field == Title ==> Changed(f, input).title == input.text
    ensures input.TextInput? && input.field == Tags ==> Changed(f, input).tags == input.text
  {
  }

  // ---------------------------------------------------------------------
  // Validation.

  const TitleRequired: string := "工具名称不能为空"
  const DescriptionRequired: string := "工具描述不能为空"
  const CategoryRequired: string := "请选择工具分类"
  const UrlRequired: string := "下载链接不能为空"
  const UrlInvalid: string := "请输入有效的下载链接"

  /** What the regular-expression `.` does not match. */
  predicate IsLineTerminator(c: char) {
    var n := c as int;
    n == 0x0A || n == 0x0D || n == 0x2028 || n == 0x2029
  }

  predicate MatchesAfter(u: string, scheme: string) {
    StartsWith(u, scheme) && |u| > |scheme| && !IsLineTerminator(u[|scheme|])
  }

  /** `/^https?:\/\/.+/.test(u)`: the scheme and at least one character
      that is not a line terminator. */
  predicate MatchesUrlPattern(u: string) {
    MatchesAfter(u, "http://") || MatchesAfter(u, "https://")
  }

  /** The form is acceptable: title and description not blank, a category
      chosen, and a link that is not blank and matches the pattern. */
  predicate FormValid(f: FormData) {
    !IsBlank(f.title) && !IsBlank(f.description) && f.categoryId != 0
    && !IsBlank(f.downloadUrl) && MatchesUrlPattern(f.downloadUrl)
  }

  /** The errors validateForm finds, one message per offending field.
      `!s.trim()` holds exactly when `s` is blank (see `Text.Trim`), so the
      checks are written with `IsBlank`. */
  function FormErrors(f: FormData): (errs: map<Field, string>)
    ensures Title in errs <==> IsBlank(f.title)
    ensures Description in errs <==> IsBlank(f.description)
    ensures CategoryId in errs <==> f.categoryId == 0
    ensures DownloadUrl in errs <==> IsBlank(f.downloadUrl) || !MatchesUrlPattern(f.downloadUrl)
    ensures DownloadPassword !in errs && Tags !in errs
    ensures Title in errs ==> errs[Title] == TitleRequired
    ensures Description in errs ==> errs[Description] == DescriptionRequired
    ensures CategoryId in errs ==> errs[CategoryId] == CategoryRequired
    ensures DownloadUrl in errs ==> errs[DownloadUrl] == if IsBlank(f.downloadUrl) then UrlRequired else UrlInvalid
  {
    var e1: map<Field, string> := if IsBlank(f.title) then map[Title := TitleRequired] else map[];
    var e2 := if IsBlank(f.description) then e1[Description := DescriptionRequired] else e1;
    var e3 := if f.categoryId == 0 then e2[CategoryId := CategoryRequired] else e2;
    if IsBlank(f.downloadUrl) then e3[DownloadUrl := UrlRequired]
    else if !MatchesUrlPattern(f.downloadUrl) then e3[DownloadUrl := UrlInvalid]
    else e3
  }

  /** validateForm answers true exactly when it finds no error, which is
      exactly when the form is acceptable. */
  lemma NoErrorsIffValid(f: FormData)
    ensures FormErrors(f) == map[] <==> FormValid(f)
  {
    if FormValid(f) {
      var e := FormErrors(f);
      forall k | k in e ensures false {
        match k
        case Title =>
        case Description =>
        case CategoryId =>
        case DownloadUrl =>
        case DownloadPassword =>
        case Tags =>
      }
      assert e.Keys == {};
    }
  }

  // ---------------------------------------------------------------------
  // Tag normalisation.

  /** `map(tag => tag.trim())`. */
  function TrimAll(xs: seq<string>): (r: seq<string>)
    ensures |r| == |xs|
  {
    if xs == [] then [] else [Trim(xs[0])] + TrimAll(xs[1..])
  }

  lemma {:induction false} TrimAllAt(xs: seq<string>, i: int)
    requires 0 <= i < |xs|
    ensures TrimAll(xs)[i] == Trim(xs[i])
    decreases |xs|
  {
    if i > 0 {
      TrimAllAt(xs[1..], i - 1);
    }
  }

  /** `filter(tag => tag.length > 0)`. */
  function NonEmpty(xs: seq<string>): seq<string> {
    if xs == [] then [] else (if xs[0] != "" then [xs[0]] else []) + NonEmpty(xs[1..])
  }

  /** The tags a tag text holds: split on commas, trimmed, empties dropped. */
  function KeptTags(s: string): seq<string> {
    NonEmpty(TrimAll(Split(s, ',')))
  }

  /** The tag text sent: the kept tags joined by bare commas. */
  function NormalizeTags(s: string): string {
    Join(KeptTags(s), ",")
  }

  predicate IsTag(t: string) {
    t != "" && IsTrimmed(t) && ',' !in t
  }

  /** Trimming never brings in a character. */
  lemma TrimKeeps(s: string, c: char)
    requires c !in s
    ensures c !in Trim(s)
  {
    var t := TrimStart(s);
    assert c !in t by {
      assert t == s[|s| - |t|..];
    }
    var r := TrimEnd(t);
    assert c !in r by {
      assert r == t[..|r|];
    }
  }

  lemma {:induction false} NonEmptySpec(xs: seq<string>)
    ensures forall k :: 0 <= k < |NonEmpty(xs)| ==> NonEmpty(xs)[k] != "" && NonEmpty(xs)[k] in xs
    ensures (forall k :: 0 <= k < |xs| ==> xs[k] != "") ==> NonEmpty(xs) == xs
    decreases |xs|
  {
    if xs != [] {
      NonEmptySpec(xs[1..]);
      if forall k :: 0 <= k < |xs| ==> xs[k] != "" {
        assert forall k :: 0 <= k < |xs[1..]| ==> xs[1..][k] != "";
        assert [xs[0]] + xs[1..] == xs;
      }
    }
  }

  lemma NonEmptyTags(xs: seq<string>)
    requires forall i :: 0 <= i < |xs| ==> IsTrimmed(xs[i]) && ',' !in xs[i]
    ensures forall k :: 0 <= k < |NonEmpty(xs)| ==> IsTag(NonEmpty(xs)[k])
  {
    NonEmptySpec(xs);
    forall k | 0 <= k < |NonEmpty(xs)| ensures IsTag(NonEmpty(xs)[k]) {
      var i :| 0 <= i < |xs| && xs[i] == NonEmpty(xs)[k];
    }
  }

  /** Every kept tag is non-empty, trimmed and free of commas. */
  lemma KeptAreTags(s: string)
    ensures forall k :: 0 <= k < |KeptTags(s)| ==> IsTag(KeptTags(s)[k])
  {
    var pieces := Split(s, ',');
    var trimmed := TrimAll(pieces);
    forall i | 0 <= i < |trimmed| ensures IsTrimmed(trimmed[i]) && ',' !in trimmed[i] {
      TrimAllAt(pieces, i);
      TrimKeeps(pieces[i], ',');
    }
    NonEmptyTags(trimmed);
  }

  lemma {:induction false} JoinEmpty(xs: seq<string>, sep: string)
    requires forall k :: 0 <= k < |xs| ==> xs[k] != ""
    ensures Join(xs, sep) == "" <==> xs == []
    decreases |xs|
  {
    if |xs| > 1 {
      assert |Join(xs, sep)| >= |xs[0]|;
    }
  }

  /** The text sent is empty exactly when no tag is kept, and otherwise
      splits on commas into exactly the kept tags. */
  /** Tags joined by bare commas split back into themselves. */
  lemma JoinedTags(xs: seq<string>)
    requires forall k :: 0 <= k < |xs| ==> IsTag(xs[k])
    ensures Join(xs, ",") == "" <==> xs == []
    ensures xs != [] ==> Split(Join(xs, ","), ',') == xs
  {
    JoinEmpty(xs, ",");
    if xs != [] {
      SplitJoin(xs, ',');
      assert [','] == ",";
    }
  }

  lemma NormalizedSegments(s: string)
    ensures NormalizeTags(s) == "" <==> KeptTags(s) == []
    ensures NormalizeTags(s) != "" ==> Split(NormalizeTags(s), ',') == KeptTags(s)
  {
    KeptAreTags(s);
    JoinedTags(KeptTags(s));
  }

  /** Tags that are already tags survive trimming and the filter. */
  lemma TagsKept(xs: seq<string>)
    requires forall k :: 0 <= k < |xs| ==> IsTag(xs[k])
    ensures NonEmpty(TrimAll(xs)) == xs
  {
    forall k | 0 <= k < |xs| ensures TrimAll(xs)[k] == xs[k] {
      TrimAllAt(xs, k);
      TrimmedIsFixed(xs[k]);
    }
    assert TrimAll(xs) == xs;
    NonEmptySpec(xs);
  }

  /** An empty tag text keeps no tag. */
  lemma NothingKept()
    ensures KeptTags("") == []
  {
    assert Split("", ',') == [""];
    assert TrimAll([""]) == [Trim("")];
  }

  /** Normalising twice is normalising once. */
  lemma NormalizeIdempotent(s: string)
    ensures NormalizeTags(NormalizeTags(s)) == NormalizeTags(s)
  {
    var xs := KeptTags(s);
    KeptAreTags(s);
    JoinedTags(xs);
    if xs == [] {
      NothingKept();
    } else {
      TagsKept(xs);
      assert KeptTags(Join(xs, ",")) == xs;
    }
  }

  /** Each piece behind a space. */
  function Pad(ys: seq<string>): (r: seq<string>)
    ensures |r| == |ys|
  {
    if ys == [] then [] else [" " + ys[0]] + Pad(ys[1..])
  }

  /** The pieces of a tag list joined by a comma and a space, split on the
      comma: the first tag, then each later one behind a space. */
  function Padded(xs: seq<string>): seq<string>
    requires |xs| >= 1
  {
    [xs[0]] + Pad(xs[1..])
  }

  lemma SplitSpacePrefix(s: string)
    ensures Split(" " + s, ',') == [" " + Split(s, ',')[0]] + Split(s, ',')[1..]
  {
    assert (" " + s)[1..] == s;
  }

  lemma JoinCommaSpace(xs: seq<string>)
    requires |xs| >= 2
    ensures Join(xs, ", ") == xs[0] + [','] + (" " + Join(xs[1..], ", "))
  {
    var rest := Join(xs[1..], ", ");
    assert Join(xs, ", ") == xs[0] + ", " + rest;
    assert xs[0] + ", " + rest == xs[0] + [','] + (" " + rest);
  }

  lemma {:induction false} SplitCommaSpace(xs: seq<string>)
    requires |xs| >= 1
    requires forall k :: 0 <= k < |xs| ==> ',' !in xs[k]
    ensures Split(Join(xs, ", "), ',') == Padded(xs)
    decreases |xs|
  {
    if |xs| == 1 {
      SplitNoSeparator(xs[0], ',');
    } else {
      var rest := Join(xs[1..], ", ");
      SplitCommaSpace(xs[1..]);
      JoinCommaSpace(xs);
      SplitAtSeparator(xs[0], ',', " " + rest);
      SplitSpacePrefix(rest);
      assert xs[1..][1..] == xs[2..];
    }
  }

  lemma {:induction false} TrimPad(ys: seq<string>)
    requires forall k :: 0 <= k < |ys| ==> IsTrimmed(ys[k])
    ensures TrimAll(Pad(ys)) == ys
    decreases |ys|
  {
    if ys != [] {
      var p, rest := Pad(ys), ys[1..];
      assert p[0] == " " + ys[0] && p[1..] == Pad(rest);
      assert forall k :: 0 <= k < |rest| ==> IsTrimmed(rest[k]) by {
        forall k | 0 <= k < |rest| ensures IsTrimmed(rest[k]) {
          assert rest[k] == ys[k + 1];
        }
      }
      TrimPad(rest);
      TrimSpacePrefix(" ", ys[0]);
      assert TrimAll(p) == [Trim(p[0])] + TrimAll(p[1..]);
      HeadTail(ys);
    }
  }

  lemma TagsRoundTrip(tags: seq<string>)
    requires forall k :: 0 <= k < |tags| ==> IsTag(tags[k])
    ensures RebuiltTags(NormalizeTags(Join(tags, ", "))) == tags
  {
    if tags == [] {
      NothingKept();
    } else {
      var text := Join(tags, ", ");
      SplitCommaSpace(tags);
      TrimPadded(tags);
      assert KeptTags(text) == NonEmpty(tags);
      NonEmptySpec(tags);
      assert NormalizeTags(text) == Join(tags, ",");
      JoinEmpty(tags, ",");
      SplitJoin(tags, ',');
    }
  }

  lemma TrimPadded(tags: seq<string>)
    requires |tags| >= 1
    requires forall k :: 0 <= k < |tags| ==> IsTag(tags[k])
    ensures TrimAll(Padded(tags)) == tags
  {
    TrimmedIsFixed(tags[0]);
    TrimPad(tags[1..]);
    assert Padded(tags)[1..] == Pad(tags[1..]);
    assert TrimAll(Padded(tags)) == [Trim(tags[0])] + TrimAll(Pad(tags[1..]));
  }

  // ---------------------------------------------------------------------
  // The payload and the rebuilt tool.

  /** The body of the update request. */
  datatype Payload = Payload(
    title: string,
    description: string,
    categoryId: int,
    downloadUrl: string,
    downloadPassword: Option<string>,
    tags: string)

  /** The texts trimmed, a blank password sent as null, the tags normalised. */
  function PayloadOf(f: FormData): (p: Payload)
    ensures p.title == Trim(f.title) && p.description == Trim(f.description)
    ensures p.downloadUrl == Trim(f.downloadUrl) && p.categoryId == f.categoryId
    ensures p.downloadPassword.None? <==> IsBlank(f.downloadPassword)
    ensures p.downloadPassword.Some? ==> p.downloadPassword.value == Trim(f.downloadPassword) != ""
    ensures p.tags == NormalizeTags(f.tags)
  {
    var password := Trim(f.downloadPassword);
    Payload(Trim(f.title), Trim(f.description), f.categoryId, Trim(f.downloadUrl),
            if password != "" then Some(password) else None, NormalizeTags(f.tags))
  }

  /** `tags ? tags.split(',') : []`. */
  function RebuiltTags(tags: string): seq<string> {
    if tags != "" then Split(tags, ',') else []
  }

  /** The tool after a successful update: the sent texts, the name of the
      chosen category (the old one when no category has the id or its name
      is empty), and the tags split back. */
  function UpdatedTool(tool: EditedTool, cats: seq<PageCategory>, p: Payload): EditedTool {
    var found := FindCategory(cats, p.categoryId);
    tool.(name := p.title, description := p.description,
          category := if found.Some? && found.value.name != "" then found.value.name else tool.category,
          downloadUrl := Some(p.downloadUrl), downloadPassword := p.downloadPassword,
          tags := RebuiltTags(p.tags))
  }

  /** The rebuilt tool carries the category chosen in the form and exactly
      the tags kept from the tag text. */
  lemma UpdatedToolSpec(tool: EditedTool, cats: seq<PageCategory>, f: FormData)
    ensures var t := UpdatedTool(tool, cats, PayloadOf(f));
      && t.id == tool.id
      && t.tags == KeptTags(f.tags)
      && (forall c :: c in cats && c.id == f.categoryId && c.name != ""
            && (forall k :: 0 <= k < |cats| && cats[k].id == f.categoryId ==> cats[k] == c)
            ==> t.category == c.name)
  {
    NormalizedSegments(f.tags);
    var found := FindCategory(cats, f.categoryId);
    if found.Some? {
      var k :| 0 <= k < |cats| && cats[k] == found.value;
    }
  }

  // ---------------------------------------------------------------------
  // The dialog.

  class EditForm {
    var form: FormData
    var errors: map<Field, string>

    constructor ()
      ensures form == EmptyForm && errors == map[]
    {
      form, errors := EmptyForm, map[];
    }

    /** When the dialog is shown with a tool: the form filled from it and no
        errors; otherwise nothing changes. */
    method Open(tool: Option<EditedTool>, visible: bool, cats: seq<PageCategory>)
      modifies this
      ensures tool.Some? && visible ==> form == InitialForm(tool.value, cats) && errors == map[]
      ensures !(tool.Some? && visible) ==> form == old(form) && errors == old(errors)
    {
      if tool.Some? && visible {
        form := InitialForm(tool.value, cats);
        errors := map[];
      }
    }

    /** handleInputChange. */
    method HandleInputChange(input: Input)
      modifies this
      ensures form == Changed(old(form), input)
      ensures errors == Cleared(old(errors), KeyOf(input))
    {
      form := Changed(form, input);
      var key := KeyOf(input);
      if key in errors && errors[key] != "" {
        errors := errors[key := ""];
      }
    }

    /** validateForm: records one message per offending field and answers
        whether there was none. */
    method ValidateForm() returns (valid: bool)
      modifies this`errors
      ensures errors == FormErrors(form)
      ensures valid <==> FormValid(form)
    {
      var f := form;
      var found: map<Field, string> := map[];
      if IsBlank(f.title) {
        found := found[Title := TitleRequired];
      }
      if IsBlank(f.description) {
        found := found[Description := DescriptionRequired];
      }
      if f.categoryId == 0 {
        found := found[CategoryId := CategoryRequired];
      }
      if IsBlank(f.downloadUrl) {
        found := found[DownloadUrl := UrlRequired];
      } else if !MatchesUrlPattern(f.downloadUrl) {
        found := found[DownloadUrl := UrlInvalid];
      }
      NoErrorsIffValid(f);
      errors := found;
      valid := found == map[];
    }

    /** handleSubmit: validates; sends the payload only for a valid form and
        a tool; rebuilds the tool only when the answer reports success. */
    method HandleSubmit(tool: Option<EditedTool>, cats: seq<PageCategory>, answer: Result<bool>)
      returns (sent: Option<Payload>, updated: Option<EditedTool>)
      modifies this`errors
      ensures errors == FormErrors(form)
      ensures sent.Some? <==> FormValid(form) && tool.Some?
      ensures sent.Some? ==> sent.value == PayloadOf(form)
      ensures updated.Some? <==> sent.Some? && answer == Ok(true)
      ensures updated.Some? ==> updated.value == UpdatedTool(tool.value, cats, sent.value)
    {
      sent, updated := None, None;
      var valid := ValidateForm();
      if !valid || tool.None? {
        return;
      }
      var p := PayloadOf(form);
      sent := Some(p);
      if answer == Ok(true) {
        updated := Some(UpdatedTool(tool.value, cats, p));
      }
    }
  }

  // ---------------------------------------------------------------------
  // The category select as written.

  /** A JavaScript value held by `formData.category_id`. */
  datatype JsValue = Num(n: int) | Str(s: string)

  /** As written, a change event stores the select's value, which is the
      chosen option's value attribute as a string. */
  function SelectedAsWritten(optionValue: string): JsValue {
    Str(optionValue)
  }

  /** As written, the missing-category check is `category_id === 0`. */
  function CategoryErrorAsWritten(v: JsValue): Option<string> {
    if v == Num(0) then Some(CategoryRequired) else None
  }

  /** As written, `categories.find(cat => cat.id === category_id)`. */
  function FindByValueAsWritten(cats: seq<PageCategory>, v: JsValue): Option<PageCategory> {
    if cats == [] then None
    else if Num(cats[0].id) == v then Some(cats[0])
    else FindByValueAsWritten(cats[1..], v)
  }

  /** Once any option has been chosen, including the placeholder whose
      value is "0", the category check never reports a missing category. */
  lemma ChosenPlaceholderAcceptedAsWritten(optionValue: string)
    ensures CategoryErrorAsWritten(SelectedAsWritten(optionValue)).None?
    ensures CategoryErrorAsWritten(SelectedAsWritten("0")).None?
    ensures CategoryId in FormErrors(EmptyForm.(categoryId := 0))
  {
  }

  /** Once any option has been chosen, no category is ever found by id, so
      the rebuilt tool keeps its old category. */
  lemma {:induction false} ChosenCategoryLostAsWritten(cats: seq<PageCategory>, optionValue: string)
    ensures FindByValueAsWritten(cats, SelectedAsWritten(optionValue)).None?
    decreases |cats|
  {
    if cats != [] {
      ChosenCategoryLostAsWritten(cats[1..], optionValue);
    }
  }
}
