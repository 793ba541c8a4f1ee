/** The pieces of SQLite's meaning the repositories rely on (`LIKE`,
    `LIMIT … OFFSET`, `?` placeholders) and the dynamic `UPDATE … SET`
    builder shared by backend/src/models/Resource.ts and
    backend/src/models/Category.ts. */
module Sql {
  import opened Wrappers
  import opened Text
  import opened Json

  /** A statement and the values bound to its placeholders, in order. */
  datatype Statement = Statement(sql: string, params: seq<Scalar>)

  // ---------------------------------------------------------------------
  // Placeholders.

  /** The number of `?` placeholders in a statement text. */
  function Placeholders(s: string): nat {
    if s == [] then 0
    else Placeholders(s[..|s| - 1]) + (if s[|s| - 1] == '?' then 1 else 0)
  }

  lemma {:induction false} PlaceholdersAppend(a: string, b: string)
    ensures Placeholders(a + b) == Placeholders(a) + Placeholders(b)
    decreases |b|
  {
    if b == [] {
      assert a + b == a;
    } else {
      assert (a + b)[..|a + b| - 1] == a + b[..|b| - 1];
      PlaceholdersAppend(a, b[..|b| - 1]);
    }
  }

  lemma PlaceholderOne()
    ensures Placeholders("?") == 1
  {
    assert "?"[..0] == [];
  }

  lemma {:induction false} PlaceholdersNone(s: string)
    requires '?' !in s
    ensures Placeholders(s) == 0
    decreases |s|
  {
    if s != [] {
      assert s[|s| - 1] in s;
      assert forall j :: 0 <= j < |s| - 1 ==> s[..|s| - 1][j] == s[j];
      PlaceholdersNone(s[..|s| - 1]);
    }
  }

  // ---------------------------------------------------------------------
  // LIKE.

  /** SQLite's `LIKE` with its defaults: `%` matches any run of characters,
      `_` any one character, and letters compare without regard to ASCII
      case. */
  predicate Like(p: string, s: string)
    decreases |p| + |s|
  {
    if p == [] then s == []
    else if p[0] == '%' then Like(p[1..], s) || (s != [] && Like(p, s[1..]))
    else s != [] && (p[0] == '_' || LowerChar(p[0]) == LowerChar(s[0])) && Like(p[1..], s[1..])
  }

  predicate NoWildcards(q: string) {
    '%' !in q && '_' !in q
  }

  lemma {:induction false} LikeAnything(s: string)
    ensures Like("%", s)
    decreases |s|
  {
    if s != [] {
      LikeAnything(s[1..]);
    }
  }

  /** A wildcard-free pattern followed by `%` matches exactly the texts that
      start with the pattern, ignoring ASCII case. */
  lemma {:induction false} LikePrefix(q: string, s: string)
    requires NoWildcards(q)
    ensures Like(q + "%", s) <==> |q| <= |s| && Lower(q) == Lower(s[..|q|])
    decreases |q|
  {
    if q == [] {
      assert q + "%" == "%";
      LikeAnything(s);
    } else {
      var p := q + "%";
      assert p[0] == q[0] && q[0] in q && p[1..] == q[1..] + "%";
      assert NoWildcards(q[1..]) by {
        assert forall j :: 0 <= j < |q| - 1 ==> q[1..][j] == q[j + 1];
      }
      if s == [] {
      } else {
        LikePrefix(q[1..], s[1..]);
        if |q| <= |s| {
          assert Lower(q) == [LowerChar(q[0])] + Lower(q[1..]);
          assert Lower(s[..|q|]) == [LowerChar(s[0])] + Lower(s[1..][..|q| - 1]);
        }
      }
    }
  }

  /** A leading `%` lets the rest of the pattern match any suffix. */
  lemma {:induction false} LikeLeadingPercent(r: string, s: string)
    ensures Like("%" + r, s) <==> exists i :: 0 <= i <= |s| && Like(r, s[i..])
    decreases |s|
  {
    var p := "%" + r;
    assert p[0] == '%' && p[1..] == r;
    if s == [] {
      assert s[0..] == s;
    } else {
      LikeLeadingPercent(r, s[1..]);
      if Like(r, s) {
        assert s[0..] == s;
      }
      if Like(p, s[1..]) {
        var i :| 0 <= i <= |s| - 1 && Like(r, s[1..][i..]);
        assert s[1..][i..] == s[i + 1..];
      }
      if exists i :: 0 <= i <= |s| && Like(r, s[i..]) {
        var i :| 0 <= i <= |s| && Like(r, s[i..]);
        if i > 0 {
          assert s[1..][i - 1..] == s[i..];
          assert Like(p, s[1..]);
        } else {
          assert s[0..] == s;
          assert Like(r, s);
        }
      }
    }
  }

  /** `text LIKE '%term%'` for a term without wildcards is containment,
      ignoring ASCII case. */
  lemma LikeContains(q: string, s: string)
    requires NoWildcards(q)
    ensures Like("%" + q + "%", s) <==> Contains(Lower(s), Lower(q))
  {
    assert "%" + q + "%" == "%" + (q + "%");
    LikeLeadingPercent(q + "%", s);
    if Like("%" + q + "%", s) {
      var i :| 0 <= i <= |s| && Like(q + "%", s[i..]);
      LikeAt(q, s, i);
    }
    if Contains(Lower(s), Lower(q)) {
      var i :| 0 <= i <= |s| - |q| && OccursAt(Lower(s), Lower(q), i);
      LikeAt(q, s, i);
    }
  }

  /** The pattern `q%` matches the suffix of `s` at `i` exactly when `q`
      occurs at `i`, ignoring ASCII case. */
  lemma LikeAt(q: string, s: string, i: nat)
    requires NoWildcards(q) && i <= |s|
    ensures Like(q + "%", s[i..]) <==> OccursAt(Lower(s), Lower(q), i)
  {
    LikePrefix(q, s[i..]);
    if i + |q| <= |s| {
      assert Lower(s)[i..i + |q|] == Lower(s[i..][..|q|]);
    }
  }

  // ---------------------------------------------------------------------
  // LIMIT … OFFSET.

  /** `LIMIT limit OFFSET offset`: a negative offset counts as zero and a
      negative limit means no limit. The result is the contiguous run of
      rows that starts at the offset (or at the end, when the offset is
      past it) and holds `limit` rows, or all there are. */
  function Window<T>(rows: seq<T>, limit: int, offset: int): (r: seq<T>)
    ensures var o := if offset < 0 then 0 else if offset > |rows| then |rows| else offset;
      && o + |r| <= |rows| && r == rows[o..o + |r|]
      && (if 0 <= limit < |rows| - o then |r| == limit else |r| == |rows| - o)
  {
    var o := if offset < 0 then 0 else if offset > |rows| then |rows| else offset;
    var rest := rows[o..];
    if 0 <= limit < |rest| then rest[..limit] else rest
  }

  /** The first k pages of `n` rows, then page k + 1, are the first k + 1
      pages: consecutive windows tile the rows without gap or overlap. */
  lemma PagesTile<T>(rows: seq<T>, n: nat, k: nat)
    requires n > 0
    ensures Window(rows, n * k, 0) + Window(rows, n, n * k) == Window(rows, n * (k + 1), 0)
  {
    var a, b, c := Window(rows, n * k, 0), Window(rows, n, n * k), Window(rows, n * (k + 1), 0);
    if n * k >= |rows| {
      assert a == rows && b == [] && c == rows;
    } else {
      assert a == rows[..n * k];
      assert a + b == rows[..n * k + |b|];
    }
  }

  // ---------------------------------------------------------------------
  // String.prototype.replace with a string pattern.

  /** The first occurrence of `pat` replaced by `rep`; unchanged when there is none. */
  function ReplaceFirst(s: string, pat: string, rep: string): string
    decreases |s|
  {
    if OccursAt(s, pat, 0) then rep + s[|pat|..]
    else if s == [] then s
    else [s[0]] + ReplaceFirst(s[1..], pat, rep)
  }

  /** An occurrence in the tail is an occurrence. */
  lemma ContainsTail(s: string, pat: string)
    requires s != [] && Contains(s[1..], pat)
    ensures Contains(s, pat)
  {
    var i :| 0 <= i <= |s| - 1 - |pat| && OccursAt(s[1..], pat, i);
    assert s[i + 1..i + 1 + |pat|] == s[1..][i..i + |pat|];
    assert OccursAt(s, pat, i + 1);
  }

  lemma {:induction false} ReplaceAbsent(s: string, pat: string, rep: string)
    requires !Contains(s, pat)
    ensures ReplaceFirst(s, pat, rep) == s
    decreases |s|
  {
    if s != [] {
      if Contains(s[1..], pat) {
        ContainsTail(s, pat);
      }
      ReplaceAbsent(s[1..], pat, rep);
    }
  }

  // ---------------------------------------------------------------------
  // The dynamic UPDATE … SET builder.

  /** One value of a patch object: absent (`undefined`), a scalar, or a list
      of strings (only ever under a key whose value is stored as JSON). */
  datatype Field = Undefined | Given(value: Scalar) | Strings(items: seq<string>)

  type Patch = seq<(string, Field)>

  /** The entries that become assignments: everything but `id`,
      `created_at` and undefined values. */
  predicate Kept(e: (string, Field)) {
    e.0 != "id" && e.0 != "created_at" && !e.1.Undefined?
  }

  /** Lists appear only under the keys stored as JSON text. */
  predicate WellTyped(patch: Patch, jsonKeys: set<string>) {
    forall i :: 0 <= i < |patch| && patch[i].1.Strings? ==> patch[i].0 in jsonKeys
  }

  /** The kept entries, in patch order. */
  function KeptEntries(patch: Patch): (r: Patch)
    ensures |r| <= |patch|
    decreases |patch|
  {
    if patch == [] then []
    else KeptEntries(patch[..|patch| - 1]) + (if Kept(patch[|patch| - 1]) then [patch[|patch| - 1]] else [])
  }

  lemma {:induction false} KeptEntriesMembers(patch: Patch)
    ensures forall e :: e in KeptEntries(patch) <==> e in patch && Kept(e)
    decreases |patch|
  {
    if patch != [] {
      var init := patch[..|patch| - 1];
      KeptEntriesMembers(init);
      assert patch == init + [patch[|patch| - 1]];
    }
  }

  lemma {:induction false} KeptEntriesTyped(patch: Patch, jsonKeys: set<string>)
    requires WellTyped(patch, jsonKeys)
    ensures WellTyped(KeptEntries(patch), jsonKeys)
    ensures forall i :: 0 <= i < |KeptEntries(patch)| ==> Kept(KeptEntries(patch)[i])
  {
    KeptEntriesMembers(patch);
    var k := KeptEntries(patch);
    forall i | 0 <= i < |k| ensures Kept(k[i]) && (k[i].1.Strings? ==> k[i].0 in jsonKeys) {
      assert k[i] in k;
      var j :| 0 <= j < |patch| && patch[j] == k[i];
    }
  }

  /** The JSON text of a defined value. */
  function FieldJson(f: Field): string
    requires !f.Undefined?
  {
    if f.Given? then EncodeScalar(f.value) else EncodeTags(f.items)
  }

  /** The value bound for one kept entry: its JSON text under a JSON key,
      itself otherwise. */
  function Binding(e: (string, Field), jsonKeys: set<string>): Scalar
    requires Kept(e) && (e.1.Strings? ==> e.0 in jsonKeys)
  {
    if e.0 in jsonKeys then Str(FieldJson(e.1)) else e.1.value
  }

  /** `key = ?` for every kept entry, in patch order. */
  function Assignments(patch: Patch): (r: seq<string>)
    ensures |r| == |KeptEntries(patch)|
  {
    var k := KeptEntries(patch);
    seq(|k|, i requires 0 <= i < |k| => k[i].0 + " = ?")
  }

  /** The bound value of every kept entry, in patch order. */
  function Bindings(patch: Patch, jsonKeys: set<string>): (r: seq<Scalar>)
    requires WellTyped(patch, jsonKeys)
    ensures |r| == |KeptEntries(patch)|
  {
    KeptEntriesTyped(patch, jsonKeys);
    var k := KeptEntries(patch);
    seq(|k|, i requires 0 <= i < |k| => Binding(k[i], jsonKeys))
  }

  /** The `forEach` over the patch entries: pushes `key = ?` and the bound
      value of every kept entry, in lock-step. */
  method BuildAssignments(patch: Patch, jsonKeys: set<string>) returns (fields: seq<string>, values: seq<Scalar>)
    requires WellTyped(patch, jsonKeys)
    ensures fields == Assignments(patch)
    ensures values == Bindings(patch, jsonKeys)
  {
    fields, values := [], [];
    var i := 0;
    while i < |patch|
      invariant 0 <= i <= |patch|
      invariant fields == Assignments(patch[..i])
      invariant WellTyped(patch[..i], jsonKeys) && values == Bindings(patch[..i], jsonKeys)
    {
      var e := patch[i];
      assert patch[..i + 1][..i] == patch[..i];
      assert patch[..i + 1][i] == e;
      if e.0 != "id" && e.0 != "created_at" && !e.1.Undefined? {
        if e.0 in jsonKeys {
          fields := fields + [e.0 + " = ?"];
          values := values + [Str(FieldJson(e.1))];
        } else {
          fields := fields + [e.0 + " = ?"];
          values := values + [e.1.value];
        }
      }
      i := i + 1;
    }
    assert patch[..i] == patch;
  }

  /** `UPDATE <table> SET <assignments joined by ", "> WHERE id = ?`. */
  function UpdateSql(table: string, fields: seq<string>): string {
    "UPDATE " + table + " " + SetClause(fields)
  }

  function SetClause(fields: seq<string>): string {
    "SET " + Join(fields, ", ") + " WHERE id = ?"
  }

  /** The statement of a patch update, or None when nothing is left to set
      (the source then returns false without a query). The row id is bound
      last. */
  method UpdateStatement(table: string, id: int, patch: Patch, jsonKeys: set<string>) returns (st: Option<Statement>)
    requires WellTyped(patch, jsonKeys)
    ensures st.None? <==> KeptEntries(patch) == []
    ensures st.Some? ==> st.value == Statement(UpdateSql(table, Assignments(patch)), Bindings(patch, jsonKeys) + [Num(id)])
  {
    var fields, values := BuildAssignments(patch, jsonKeys);
    if |fields| == 0 {
      return None;
    }
    var sql := "UPDATE " + table + " " + "SET " + Join(fields, ", ") + " WHERE id = ?";
    values := values + [Num(id)];
    st := Some(Statement(sql, values));
  }

  lemma {:induction false} PlaceholdersJoin(fields: seq<string>, keys: seq<string>)
    requires |fields| == |keys| && forall i :: 0 <= i < |keys| ==> fields[i] == keys[i] + " = ?" && '?' !in keys[i]
    ensures Placeholders(Join(fields, ", ")) == |fields|
    decreases |fields|
  {
    if |fields| >= 1 {
      PlaceholdersAppend(" = ", "?");
      assert " = " + "?" == " = ?";
      PlaceholderOne();
      PlaceholdersNone(" = ");
      PlaceholdersAppend(keys[0], " = ?");
      PlaceholdersNone(keys[0]);
      assert Placeholders(fields[0]) == 1;
    }
    if |fields| > 1 {
      PlaceholdersJoin(fields[1..], keys[1..]);
      PlaceholdersNone(", ");
      PlaceholdersAppend(fields[0], ", ");
      PlaceholdersAppend(fields[0] + ", ", Join(fields[1..], ", "));
    }
  }

  /** When no key of the patch holds a `?` and the table name holds none,
      the update statement has exactly one placeholder per bound value. */
  lemma UpdatePlaceholders(table: string, id: int, patch: Patch, jsonKeys: set<string>)
    requires WellTyped(patch, jsonKeys) && '?' !in table
    requires forall i :: 0 <= i < |patch| ==> '?' !in patch[i].0
    ensures Placeholders(UpdateSql(table, Assignments(patch))) == |Bindings(patch, jsonKeys) + [Num(id)]|
  {
    var k := KeptEntries(patch);
    var keys := seq(|k|, i requires 0 <= i < |k| => k[i].0);
    KeptEntriesMembers(patch);
    forall i | 0 <= i < |keys| ensures '?' !in keys[i] {
      assert k[i] in k;
      var j :| 0 <= j < |patch| && patch[j] == k[i];
    }
    PlaceholdersJoin(Assignments(patch), keys);
    var j := Join(Assignments(patch), ", ");
    PlaceholdersAppend("SET " + j, " WHERE id = ?");
    PlaceholdersAppend("SET ", j);
    PlaceholdersAppend("UPDATE " + table + " ", SetClause(Assignments(patch)));
    PlaceholdersAppend("UPDATE " + table, " ");
    PlaceholdersAppend("UPDATE ", table);
    PlaceholdersNone(table);
    PlaceholdersNone("UPDATE ");
    PlaceholdersNone(" ");
    PlaceholdersNone("SET ");
    PlaceholdersAppend(" WHERE id = ", "?");
    assert " WHERE id = " + "?" == " WHERE id = ?";
    PlaceholderOne();
    PlaceholdersNone(" WHERE id = ");
  }
}
