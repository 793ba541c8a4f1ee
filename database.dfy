/** The data layer's single entry point for SQL (backend/src/config/database.ts):
    a process-wide cache of read results keyed by statement text and
    parameters, expired after five minutes, swept opportunistically, and
    invalidated by table name whenever a non-read statement goes through; and
    a begin/commit/rollback wrapper around a unit of work.

    SQLite itself is not modelled: each operation receives a `Handle`, the
    answers the storage engine gives, and the executor records every call it
    makes on the handle in `issued`, so "served without touching the store"
    reads as "`issued` did not change". The clock is the parameter `now`. */
module Database {
  import opened Wrappers
  import opened Text
  import opened Json

  /** CACHE_TTL: five minutes, in milliseconds. */
  const CacheTtl: int := 5 * 60 * 1000

  /** A read that leaves more entries than this triggers a sweep. */
  const SweepThreshold: nat := 100

  type Row = map<string, Scalar>

  /** `lastID` and `changes` of a write. */
  datatype RunInfo = RunInfo(lastId: int, changes: nat)

  /** What a statement produced: the rows of a read, or a write's record. */
  datatype Payload = Rows(rows: seq<Row>) | Ran(info: RunInfo)

  datatype Entry = Entry(data: Payload, timestamp: int)

  type Cache = map<string, Entry>

  /** One call made on the storage handle. */
  datatype Call =
    | All(sql: string, params: seq<Scalar>)
    | Run(sql: string, params: seq<Scalar>)
    | Exec(sql: string)

  /** The storage engine's answer to each kind of call. */
  datatype Handle = Handle(
    all: (string, seq<Scalar>) -> Result<seq<Row>>,
    run: (string, seq<Scalar>) -> Result<RunInfo>,
    exec: string -> Result<()>)

  /** An absent parameter list is bound as the empty one. */
  function ParamsOrEmpty(params: Option<seq<Scalar>>): seq<Scalar> {
    params.GetOr([])
  }

  /** getCacheKey: the statement text, a colon, then the parameters as JSON. */
  function CacheKey(sql: string, params: Option<seq<Scalar>>): string {
    sql + ":" + Stringify(ParamsOrEmpty(params))
  }

  /** For one statement text, two parameter lists share a cache key exactly
      when they bind the same values; in particular an absent list and `[]`
      share one. */
  lemma CacheKeyInjective(sql: string, p: Option<seq<Scalar>>, q: Option<seq<Scalar>>)
    ensures CacheKey(sql, p) == CacheKey(sql, q) <==> ParamsOrEmpty(p) == ParamsOrEmpty(q)
  {
    var a, b := Stringify(ParamsOrEmpty(p)), Stringify(ParamsOrEmpty(q));
    if CacheKey(sql, p) == CacheKey(sql, q) {
      assert CacheKey(sql, p)[|sql| + 1..] == a;
      assert CacheKey(sql, q)[|sql| + 1..] == b;
    }
    StringifyInjective(ParamsOrEmpty(p), ParamsOrEmpty(q));
  }

  /** A statement is a read when its trimmed, upper-cased text starts with SELECT. */
  predicate IsRead(sql: string) {
    StartsWith(Upper(Trim(sql)), "SELECT")
  }

  /** An entry a read may be served from at time `now`. */
  predicate Servable(m: Cache, key: string, now: int) {
    key in m && now - m[key].timestamp < CacheTtl
  }

  /** An entry the sweep deletes at time `now`. */
  predicate Expired(e: Entry, now: int) {
    now - e.timestamp > CacheTtl
  }

  /** cleanExpiredCache, as a value: the entries past the TTL dropped. */
  function Swept(m: Cache, now: int): (r: Cache)
    ensures r.Keys <= m.Keys
    ensures forall k :: k in r ==> r[k] == m[k] && !Expired(m[k], now)
  {
    map k | k in m && !Expired(m[k], now) :: m[k]
  }

  /** clearCacheByTable, as a value: every key containing `table` dropped. */
  function Evicted(m: Cache, table: string): (r: Cache)
    ensures r.Keys <= m.Keys
    ensures forall k :: k in r ==> r[k] == m[k] && !Contains(k, table)
  {
    map k | k in m && !Contains(k, table) :: m[k]
  }

  /** The cache after a read that went to storage and got `rows` at `now`. */
  function Stored(m: Cache, key: string, rows: seq<Row>, now: int): Cache {
    var c := m[key := Entry(Rows(rows), now)];
    if |c| > SweepThreshold then Swept(c, now) else c
  }

  /** The cache after a non-read statement, whatever storage made of it. */
  function Invalidated(m: Cache, sql: string): (r: Cache)
    ensures r.Keys <= m.Keys
    ensures forall k :: k in r ==> r[k] == m[k]
  {
    match ExtractTableName(sql)
    case None => m
    case Some(t) => Evicted(m, t)
  }

  // ---------------------------------------------------------------------
  // Table-name extraction: /(?:FROM|INTO|UPDATE)\s+([\w_]+)/i

  predicate IsWordChar(c: char) {
    'a' <= c <= 'z' || 'A' <= c <= 'Z' || '0' <= c <= '9' || c == '_'
  }

  /** Length of the keyword (FROM, INTO or UPDATE, any letter case) that
      starts at `i`, or 0. The three start with different letters, so at most
      one of them matches. */
  function KeywordLength(s: string, i: nat): (k: nat)
    requires i <= |s|
    ensures k == 0 || k == 4 || k == 6
    ensures i + k <= |s|
  {
    if i + 4 <= |s| && (Upper(s[i..i + 4]) == "FROM" || Upper(s[i..i + 4]) == "INTO") then 4
    else if i + 6 <= |s| && Upper(s[i..i + 6]) == "UPDATE" then 6
    else 0
  }

  function SpaceRun(s: string): (k: nat)
    ensures k <= |s|
    ensures forall j :: 0 <= j < k ==> IsSpace(s[j])
    ensures k == |s| || !IsSpace(s[k])
  {
    if s != [] && IsSpace(s[0]) then 1 + SpaceRun(s[1..]) else 0
  }

  function WordRun(s: string): (k: nat)
    ensures k <= |s|
    ensures forall j :: 0 <= j < k ==> IsWordChar(s[j])
    ensures k == |s| || !IsWordChar(s[k])
  {
    if s != [] && IsWordChar(s[0]) then 1 + WordRun(s[1..]) else 0
  }

  /** The pattern tried at position `i`: a keyword, at least one white-space
      character, then the longest run of word characters, which is captured.
      White space is not a word character, so taking all of the white space
      is the only way the identifier can follow it. */
  function MatchAt(s: string, i: nat): (r: Option<string>)
    requires i <= |s|
    ensures r.Some? ==> |r.value| > 0 && forall j :: 0 <= j < |r.value| ==> IsWordChar(r.value[j])
  {
    var k := KeywordLength(s, i);
    if k == 0 then None
    else
      var after := s[i + k..];
      var w := SpaceRun(after);
      if w == 0 then None
      else
        var n := WordRun(after[w..]);
        if n == 0 then None else Some(after[w..w + n])
  }

  /** The first present entry of `ms`, or None. */
  function Leftmost<T>(ms: seq<Option<T>>): Option<T> {
    if ms == [] then None
    else if ms[0].Some? then ms[0]
    else Leftmost(ms[1..])
  }

  /** Leftmost finds nothing exactly when every entry is absent, and
      otherwise the entry at the first position that holds one. */
  lemma {:induction false} LeftmostSpec<T>(ms: seq<Option<T>>)
    ensures Leftmost(ms).None? <==> forall j :: 0 <= j < |ms| ==> ms[j].None?
    ensures Leftmost(ms).Some? ==>
      exists j :: 0 <= j < |ms| && ms[j] == Leftmost(ms) && forall k :: 0 <= k < j ==> ms[k].None?
  {
    if ms != [] && ms[0].None? {
      var tail := ms[1..];
      LeftmostSpec(tail);
      if Leftmost(ms).Some? {
        var j :| 0 <= j < |tail| && tail[j] == Leftmost(tail) && forall k :: 0 <= k < j ==> tail[k].None?;
        assert ms[j + 1] == tail[j];
        forall k | 0 <= k < j + 1 ensures ms[k].None? {
          if k > 0 {
            assert ms[k] == tail[k - 1];
          }
        }
      }
    }
  }

  /** Absent entries at the front are skipped. */
  lemma {:induction false} LeftmostSkips<T>(ms: seq<Option<T>>, j: nat)
    requires j <= |ms|
    requires forall k :: 0 <= k < j ==> ms[k].None?
    ensures Leftmost(ms) == Leftmost(ms[j..])
  {
    if j > 0 {
      assert ms[0].None?;
      assert ms[1..][j - 1..] == ms[j..];
      LeftmostSkips(ms[1..], j - 1);
    }
  }

  /** What the pattern matches at each position of `s`. */
  function Matches(s: string): (ms: seq<Option<string>>)
    ensures |ms| == |s| + 1
    ensures forall i :: 0 <= i <= |s| ==> ms[i] == MatchAt(s, i)
  {
    seq(|s| + 1, i requires 0 <= i <= |s| => MatchAt(s, i))
  }

  /** extractTableName: the identifier after the leftmost FROM, INTO or
      UPDATE (any letter case) that is followed by white space and a word,
      or None when there is no such place. */
  function ExtractTableName(sql: string): (r: Option<string>)
    ensures r.None? <==> forall i :: 0 <= i <= |sql| ==> MatchAt(sql, i).None?
    ensures r.Some? ==> exists i :: 0 <= i <= |sql| && MatchAt(sql, i) == r
                          && forall j :: 0 <= j < i ==> MatchAt(sql, j).None?
  {
    var ms := Matches(sql);
    LeftmostSpec(ms);
    Leftmost(ms)
  }

  predicate IsWord(t: string) {
    t != [] && forall j :: 0 <= j < |t| ==> IsWordChar(t[j])
  }

  lemma {:induction false} WordRunOf(t: string, rest: string)
    requires forall j :: 0 <= j < |t| ==> IsWordChar(t[j])
    requires rest == [] || !IsWordChar(rest[0])
    ensures WordRun(t + rest) == |t|
    decreases |t|
  {
    if t != [] {
      assert (t + rest)[1..] == t[1..] + rest;
      WordRunOf(t[1..], rest);
    } else {
      assert t + rest == rest;
    }
  }

  /** Upper-casing leaves capital letters and spaces alone. */
  lemma UpperFixed(w: string)
    requires forall j :: 0 <= j < |w| ==> 'A' <= w[j] <= 'Z' || w[j] == ' '
    ensures Upper(w) == w
  {
  }

  /** A keyword at `i`, one space, then the word `t` ending where a non-word
      character (or the end) follows: `t` is what matches at `i`. */
  lemma MatchAtKeyword(s: string, i: nat, k: nat, t: string, rest: string)
    requires i + k <= |s| && KeywordLength(s, i) == k && k > 0
    requires s[i + k..] == " " + t + rest
    requires IsWord(t) && (rest == [] || !IsWordChar(rest[0]))
    ensures MatchAt(s, i) == Some(t)
  {
    var after := s[i + k..];
    assert !IsSpace(after[1]);
    assert SpaceRun(after[1..]) == 0;
    assert SpaceRun(after) == 1;
    assert after[1..] == t + rest;
    WordRunOf(t, rest);
    assert after[1..1 + |t|] == t;
  }

  lemma UpdateMatch(s: string, table: string, rest: string)
    requires IsWord(table) && s == "UPDATE " + table + " " + rest
    ensures MatchAt(s, 0) == Some(table)
  {
    assert s[..6] == "UPDATE";
    UpperFixed("UPDATE");
    assert Upper(s[0..4])[0] == 'U';
    assert KeywordLength(s, 0) == 6;
    assert s[6..] == " " + table + (" " + rest);
    MatchAtKeyword(s, 0, 6, table, " " + rest);
  }

  lemma InsertMatch(s: string, table: string, rest: string)
    requires IsWord(table) && s == "INSERT INTO " + table + " " + rest
    ensures MatchAt(s, 7) == Some(table)
    ensures forall i :: 0 <= i < 7 ==> MatchAt(s, i).None?
  {
    assert s[..12] == "INSERT INTO ";
    assert Upper(s[0..4])[0] == 'I' && Upper(s[0..4])[2] == 'S';
    assert Upper(s[0..6])[0] == 'I';
    assert KeywordLength(s, 0) == 0;
    forall i | 1 <= i < 7 ensures MatchAt(s, i).None? {
      NoKeywordAt(s, i);
    }
    assert s[7..11] == "INTO";
    UpperFixed("INTO");
    assert KeywordLength(s, 7) == 4;
    assert s[11..] == " " + table + (" " + rest);
    MatchAtKeyword(s, 7, 4, table, " " + rest);
  }

  /** No keyword starts with a character other than F, I or U. */
  lemma NoKeywordAt(s: string, i: nat)
    requires i < |s| && UpperChar(s[i]) != 'F' && UpperChar(s[i]) != 'I' && UpperChar(s[i]) != 'U'
    ensures MatchAt(s, i).None?
  {
    if i + 4 <= |s| {
      assert Upper(s[i..i + 4])[0] == UpperChar(s[i]);
    }
    if i + 6 <= |s| {
      assert Upper(s[i..i + 6])[0] == UpperChar(s[i]);
    }
  }

  /** `UPDATE <table> ...` is not a read, and it names `table`. */
  lemma UpdateNamesTable(table: string, rest: string)
    requires IsWord(table)
    ensures !IsRead("UPDATE " + table + " " + rest)
    ensures ExtractTableName("UPDATE " + table + " " + rest) == Some(table)
  {
    var s := "UPDATE " + table + " " + rest;
    NotRead(s);
    UpdateMatch(s, table, rest);
  }

  /** `INSERT INTO <table> ...` is not a read, and it names `table`. */
  lemma InsertNamesTable(table: string, rest: string)
    requires IsWord(table)
    ensures !IsRead("INSERT INTO " + table + " " + rest)
    ensures ExtractTableName("INSERT INTO " + table + " " + rest) == Some(table)
  {
    var s := "INSERT INTO " + table + " " + rest;
    NotRead(s);
    InsertExtracts(s, table, rest);
  }

  lemma InsertExtracts(s: string, table: string, rest: string)
    requires IsWord(table) && s == "INSERT INTO " + table + " " + rest
    ensures ExtractTableName(s) == Some(table)
  {
    InsertMatch(s, table, rest);
    var ms := Matches(s);
    LeftmostSkips(ms, 7);
    assert ms[7..][0] == Some(table);
  }

  /** A statement that starts with `SELECT` is a read. */
  lemma SelectIsRead(s: string)
    requires StartsWith(s, "SELECT")
    ensures IsRead(s)
  {
    assert s[0] == 'S' && s[5] == 'T';
    assert TrimStart(s) == s;
    var r := Trim(s);
    assert |r| >= 6 && r[..6] == "SELECT";
    var u := Upper(r);
    assert u[..6] == "SELECT";
  }

  /** A statement whose first character is a letter other than `S` is not a read. */
  lemma NotRead(s: string)
    requires s != [] && 'A' <= s[0] <= 'Z' && s[0] != 'S'
    ensures !IsRead(s)
  {
    assert !IsSpace(s[0]);
    var t := TrimStart(s);
    assert t == s;
    assert Trim(s)[0] == s[0];
  }

  // ---------------------------------------------------------------------
  // Properties of the cache policy.

  /** The sweep never changes what a read at the same instant is served:
      an entry survives it whenever it is servable, unchanged. */
  lemma SweepInvisibleToReads(m: Cache, key: string, now: int)
    ensures Servable(Swept(m, now), key, now) <==> Servable(m, key, now)
    ensures Servable(m, key, now) ==> Swept(m, now)[key] == m[key]
  {
    if Servable(m, key, now) {
      assert !Expired(m[key], now);
      assert key in Swept(m, now);
    }
  }

  /** The sweep keeps exactly the entries whose age is at most the TTL. */
  lemma SweptKeeps(m: Cache, key: string, now: int)
    ensures key in Swept(m, now) <==> key in m && now - m[key].timestamp <= CacheTtl
  {
  }

  /** An entry aged exactly the TTL is neither served nor swept. */
  lemma BoundaryEntryLingers(m: Cache, key: string, now: int)
    requires key in m && now - m[key].timestamp == CacheTtl
    ensures !Servable(m, key, now)
    ensures key in Swept(m, now) && Swept(m, now)[key] == m[key]
  {
  }

  /** After clearCacheByTable(t) no key contains `t`, and every key that does
      not contain it keeps its entry. */
  lemma EvictedExactly(m: Cache, table: string, key: string)
    ensures key in Evicted(m, table) <==> key in m && !Contains(key, table)
    ensures key in Evicted(m, table) ==> Evicted(m, table)[key] == m[key]
  {
  }

  /** Evicting a table misses every statement that names it, whatever its
      values. */
  lemma NamedStatementEvicted(m: Cache, table: string, sql: string, params: Option<seq<Scalar>>, now: int)
    requires Contains(sql, table)
    ensures !Servable(Evicted(m, table), CacheKey(sql, params), now)
  {
    ContainsGrow(sql, ":", table);
    ContainsGrow(sql + ":", Stringify(ParamsOrEmpty(params)), table);
    EvictedExactly(m, table, CacheKey(sql, params));
  }

  /** What a read stores is served back until the TTL has elapsed, even when
      the sweep runs. */
  lemma StoredIsServed(m: Cache, key: string, rows: seq<Row>, stored: int, later: int)
    requires stored <= later < stored + CacheTtl
    ensures Servable(Stored(m, key, rows, stored), key, later)
    ensures Stored(m, key, rows, stored)[key] == Entry(Rows(rows), stored)
  {
    var c := m[key := Entry(Rows(rows), stored)];
    if |c| > SweepThreshold {
      SweepInvisibleToReads(c, key, stored);
    }
  }

  /** A non-read statement naming table T leaves no servable entry whose key
      mentions T, and leaves the entries of other keys alone. */
  lemma InvalidatedMisses(m: Cache, sql: string, table: string, key: string, now: int)
    requires ExtractTableName(sql) == Some(table)
    ensures Contains(key, table) ==> !Servable(Invalidated(m, sql), key, now)
    ensures !Contains(key, table) && key in m ==> key in Invalidated(m, sql) && Invalidated(m, sql)[key] == m[key]
  {
  }

  /** A non-read statement in which no table name can be found evicts nothing. */
  lemma InvalidatedNothing(m: Cache, sql: string)
    requires forall i :: 0 <= i <= |sql| ==> MatchAt(sql, i).None?
    ensures Invalidated(m, sql) == m
  {
  }

  // ---------------------------------------------------------------------
  // The executor.

  /** What a read that goes to storage returns. */
  function Fetched(h: Handle, sql: string, ps: seq<Scalar>): (r: Result<Payload>)
    ensures r.Ok? <==> h.all(sql, ps).Ok?
    ensures r.Ok? ==> r.value == Rows(h.all(sql, ps).value)
    ensures r.Err? ==> r.msg == h.all(sql, ps).msg
  {
    match h.all(sql, ps)
    case Err(e) => Err(e)
    case Ok(rows) => Ok(Rows(rows))
  }

  /** What a non-read statement returns. */
  function Written(h: Handle, sql: string, ps: seq<Scalar>): (r: Result<Payload>)
    ensures r.Ok? <==> h.run(sql, ps).Ok?
    ensures r.Ok? ==> r.value == Ran(h.run(sql, ps).value)
    ensures r.Err? ==> r.msg == h.run(sql, ps).msg
  {
    match h.run(sql, ps)
    case Err(e) => Err(e)
    case Ok(info) => Ok(Ran(info))
  }

  /** Every entry holds rows: only reads store entries. */
  predicate AllRows(m: Cache) {
    forall k :: k in m ==> m[k].data.Rows?
  }

  /** What a read returns, given the cache it finds. */
  function CachedRead(m: Cache, sql: string, params: Option<seq<Scalar>>, now: int, h: Handle): (r: Result<seq<Row>>)
    requires AllRows(m)
    ensures Servable(m, CacheKey(sql, params), now) ==> r == Ok(m[CacheKey(sql, params)].data.rows)
    ensures !Servable(m, CacheKey(sql, params), now) ==> r == h.all(sql, ParamsOrEmpty(params))
  {
    var key := CacheKey(sql, params);
    if Servable(m, key, now) then Ok(m[key].data.rows) else h.all(sql, ParamsOrEmpty(params))
  }

  /** The cache a read leaves behind. */
  function AfterRead(m: Cache, sql: string, params: Option<seq<Scalar>>, now: int, h: Handle): Cache {
    var key := CacheKey(sql, params);
    var fetched := h.all(sql, ParamsOrEmpty(params));
    if Servable(m, key, now) || fetched.Err? then m else Stored(m, key, fetched.value, now)
  }

  /** The calls a read makes on the storage handle: none when it is served. */
  function ReadCalls(m: Cache, sql: string, params: Option<seq<Scalar>>, now: int): seq<Call> {
    if Servable(m, CacheKey(sql, params), now) then [] else [All(sql, ParamsOrEmpty(params))]
  }

  /** Reads and writes keep every entry a row set. */
  lemma AllRowsKept(m: Cache, sql: string, params: Option<seq<Scalar>>, now: int, h: Handle)
    requires AllRows(m)
    ensures AllRows(AfterRead(m, sql, params, now, h))
    ensures AllRows(Invalidated(m, sql))
  {
    var key := CacheKey(sql, params);
    var fetched := h.all(sql, ParamsOrEmpty(params));
    if fetched.Ok? {
      var c := m[key := Entry(Rows(fetched.value), now)];
      assert AllRows(c);
    }
  }

  /** A read at `now` leaves every other key exactly as servable as it was,
      with the same entry: what it stores sits under its own key, and the
      sweep it may trigger only drops entries no read at `now` is served. */
  lemma ReadKeepsOtherKeys(m: Cache, sql: string, params: Option<seq<Scalar>>, key: string, now: int, h: Handle)
    requires key != CacheKey(sql, params)
    ensures Servable(AfterRead(m, sql, params, now, h), key, now) <==> Servable(m, key, now)
    ensures Servable(m, key, now) ==> AfterRead(m, sql, params, now, h)[key] == m[key]
  {
    var own := CacheKey(sql, params);
    var fetched := h.all(sql, ParamsOrEmpty(params));
    if !Servable(m, own, now) && fetched.Ok? {
      var c := m[own := Entry(Rows(fetched.value), now)];
      assert Servable(c, key, now) <==> Servable(m, key, now);
      if |c| > SweepThreshold {
        SweepInvisibleToReads(c, key, now);
      }
    }
  }

  /** Two reads started together under different keys: the second one
      returns and calls exactly what it would have if it had gone first, so
      issuing them one after the other stands for issuing them at once. */
  lemma ReadsCommute(m: Cache, s1: string, p1: Option<seq<Scalar>>, s2: string, p2: Option<seq<Scalar>>, now: int, h: Handle)
    requires AllRows(m) && CacheKey(s1, p1) != CacheKey(s2, p2)
    ensures AllRows(AfterRead(m, s1, p1, now, h))
    ensures CachedRead(AfterRead(m, s1, p1, now, h), s2, p2, now, h) == CachedRead(m, s2, p2, now, h)
    ensures ReadCalls(AfterRead(m, s1, p1, now, h), s2, p2, now) == ReadCalls(m, s2, p2, now)
  {
    AllRowsKept(m, s1, p1, now, h);
    ReadKeepsOtherKeys(m, s1, p1, CacheKey(s2, p2), now, h);
  }

  /** What a caller-supplied unit of work does inside a transaction: the
      calls it makes on the handle it is given, and how it ends. */
  datatype Work = Work(calls: seq<Call>, outcome: Result<Payload>)

  class Executor {
    /** queryCache */
    var cache: Cache
    /** Every call made on the storage handle, oldest first. */
    var issued: seq<Call>

    constructor ()
      ensures cache == map[] && issued == []
    {
      cache := map[];
      issued := [];
    }

    /** cleanExpiredCache: deletes, in place, exactly the entries older than the TTL. */
    method CleanExpiredCache(now: int)
      modifies this`cache
      ensures cache == Swept(old(cache), now)
    {
      var keys := cache.Keys;
      while keys != {}
        invariant keys <= cache.Keys
        invariant cache == map k | k in old(cache) && (k in keys || !Expired(old(cache)[k], now)) :: old(cache)[k]
        decreases keys
      {
        var k :| k in keys;
        if now - cache[k].timestamp > CacheTtl {
          cache := cache - {k};
        }
        keys := keys - {k};
      }
    }

    /** clearCacheByTable: deletes, in place, exactly the entries whose key
        contains `table`. */
    method ClearCacheByTable(table: string)
      modifies this`cache
      ensures cache == Evicted(old(cache), table)
      ensures forall k :: k in cache ==> !Contains(k, table)
    {
      var keys := cache.Keys;
      while keys != {}
        invariant keys <= cache.Keys
        invariant cache == map k | k in old(cache) && (k in keys || !Contains(k, table)) :: old(cache)[k]
        decreases keys
      {
        var k :| k in keys;
        if Contains(k, table) {
          cache := cache - {k};
        }
        keys := keys - {k};
      }
    }

    /** clearCache */
    method ClearCache()
      modifies this`cache
      ensures cache == map[]
    {
      cache := map[];
    }

    /** query: a read is served from a servable entry without touching the
        store, and otherwise runs against the store and (on success) replaces
        its entry; any other statement first evicts by table name and only
        then runs, so a failed write still evicts. Storage errors propagate
        unchanged. */
    method Query(sql: string, params: Option<seq<Scalar>>, now: int, h: Handle) returns (r: Result<Payload>)
      modifies this
      ensures IsRead(sql) && Servable(old(cache), CacheKey(sql, params), now) ==>
        r == Ok(old(cache)[CacheKey(sql, params)].data) && cache == old(cache) && issued == old(issued)
      ensures IsRead(sql) && !Servable(old(cache), CacheKey(sql, params), now) ==>
        && issued == old(issued) + [All(sql, ParamsOrEmpty(params))]
        && r == Fetched(h, sql, ParamsOrEmpty(params))
        && cache == (if r.Ok? then Stored(old(cache), CacheKey(sql, params), r.value.rows, now) else old(cache))
      ensures !IsRead(sql) ==>
        && issued == old(issued) + [Run(sql, ParamsOrEmpty(params))]
        && r == Written(h, sql, ParamsOrEmpty(params))
        && cache == Invalidated(old(cache), sql)
    {
      if IsRead(sql) {
        r := Read(sql, params, now, h);
      } else {
        r := Write(sql, params, h);
      }
    }

    /** A read that returns rows, in terms of the cache it finds. */
    method ReadRows(sql: string, params: Option<seq<Scalar>>, now: int, h: Handle) returns (r: Result<seq<Row>>)
      requires IsRead(sql) && AllRows(cache)
      modifies this
      ensures r == CachedRead(old(cache), sql, params, now, h)
      ensures cache == AfterRead(old(cache), sql, params, now, h)
      ensures issued == old(issued) + ReadCalls(old(cache), sql, params, now)
    {
      var p := Query(sql, params, now, h);
      r := if p.Err? then Err(p.msg) else Ok(p.value.rows);
    }

    /** A write naming `table`, in terms of what the store reports. */
    method WriteRows(table: string, sql: string, params: seq<Scalar>, now: int, h: Handle) returns (r: Result<RunInfo>)
      requires !IsRead(sql) && ExtractTableName(sql) == Some(table)
      modifies this
      ensures r == h.run(sql, params)
      ensures cache == Evicted(old(cache), table)
      ensures issued == old(issued) + [Run(sql, params)]
    {
      var p := Query(sql, Some(params), now, h);
      r := if p.Err? then Err(p.msg) else Ok(p.value.info);
    }

    /** The read path of `query`. */
    method Read(sql: string, params: Option<seq<Scalar>>, now: int, h: Handle) returns (r: Result<Payload>)
      modifies this
      ensures Servable(old(cache), CacheKey(sql, params), now) ==>
        r == Ok(old(cache)[CacheKey(sql, params)].data) && cache == old(cache) && issued == old(issued)
      ensures !Servable(old(cache), CacheKey(sql, params), now) ==>
        && issued == old(issued) + [All(sql, ParamsOrEmpty(params))]
        && r == Fetched(h, sql, ParamsOrEmpty(params))
        && cache == (if r.Ok? then Stored(old(cache), CacheKey(sql, params), r.value.rows, now) else old(cache))
    {
      var ps := ParamsOrEmpty(params);
      var key := CacheKey(sql, params);
      if Servable(cache, key, now) {
        return Ok(cache[key].data);
      }
      issued := issued + [All(sql, ps)];
      var result := h.all(sql, ps);
      if result.Err? {
        return Err(result.msg);
      }
      cache := cache[key := Entry(Rows(result.value), now)];
      if |cache| > SweepThreshold {
        CleanExpiredCache(now);
      }
      r := Ok(Rows(result.value));
    }

    /** The non-read path of `query`. */
    method Write(sql: string, params: Option<seq<Scalar>>, h: Handle) returns (r: Result<Payload>)
      modifies this
      ensures issued == old(issued) + [Run(sql, ParamsOrEmpty(params))]
      ensures r == Written(h, sql, ParamsOrEmpty(params))
      ensures cache == Invalidated(old(cache), sql)
    {
      var ps := ParamsOrEmpty(params);
      var table := ExtractTableName(sql);
      if table.Some? {
        ClearCacheByTable(table.value);
      }
      issued := issued + [Run(sql, ps)];
      var result := h.run(sql, ps);
      if result.Err? {
        return Err(result.msg);
      }
      r := Ok(Ran(result.value));
    }

    /** transaction: BEGIN, the unit of work, COMMIT; when any of these fails,
        ROLLBACK and rethrow, except that an error from ROLLBACK itself
        replaces the original one. The cache is not touched. */
    method Transaction(work: Work, h: Handle) returns (r: Result<Payload>)
      modifies this`issued
      ensures var begin, commit, rollback := h.exec("BEGIN TRANSACTION"), h.exec("COMMIT"), h.exec("ROLLBACK");
        if begin.Ok? && work.outcome.Ok? && commit.Ok? then
          r == work.outcome && issued == old(issued) + [Exec("BEGIN TRANSACTION")] + work.calls + [Exec("COMMIT")]
        else
          && issued == old(issued) + [Exec("BEGIN TRANSACTION")]
                       + (if begin.Err? then [] else work.calls)
                       + (if begin.Err? || work.outcome.Err? then [] else [Exec("COMMIT")])
                       + [Exec("ROLLBACK")]
          && r == Err(if rollback.Err? then rollback.msg
                      else if begin.Err? then begin.msg
                      else if work.outcome.Err? then work.outcome.msg
                      else commit.msg)
    {
      var failure: string;
      issued := issued + [Exec("BEGIN TRANSACTION")];
      var begin := h.exec("BEGIN TRANSACTION");
      if begin.Err? {
        failure := begin.msg;
      } else {
        issued := issued + work.calls;
        if work.outcome.Err? {
          failure := work.outcome.msg;
        } else {
          issued := issued + [Exec("COMMIT")];
          var commit := h.exec("COMMIT");
          if commit.Ok? {
            return work.outcome;
          }
          failure := commit.msg;
        }
      }
      issued := issued + [Exec("ROLLBACK")];
      var rollback := h.exec("ROLLBACK");
      r := Err(if rollback.Err? then rollback.msg else failure);
    }
  }

  /** Two identical reads within the TTL with no statement in between: the
      second is served from the cache, returns the same payload and makes no
      call on the storage handle. */
  method RepeatedRead(db: Executor, sql: string, params: Option<seq<Scalar>>, t0: int, t1: int, h: Handle)
    returns (first: Result<Payload>, second: Result<Payload>)
    requires IsRead(sql) && t0 <= t1 < t0 + CacheTtl
    requires !Servable(db.cache, CacheKey(sql, params), t0)
    requires h.all(sql, ParamsOrEmpty(params)).Ok?
    modifies db
    ensures second == first
    ensures db.issued == old(db.issued) + [All(sql, ParamsOrEmpty(params))]
  {
    first := db.Query(sql, params, t0, h);
    StoredIsServed(old(db.cache), CacheKey(sql, params), h.all(sql, ParamsOrEmpty(params)).value, t0, t1);
    second := db.Query(sql, params, t1, h);
  }

  lemma AppendTwo<T>(s: seq<T>, x: T, y: T)
    ensures s + [x] + [y] == s + [x, y]
  {
  }

  /** A non-read statement naming table T followed by a read whose cache key
      mentions T: the read goes to storage and returns what storage says now,
      whether or not the write itself succeeded. */
  method ReadAfterWrite(db: Executor, write: string, wparams: Option<seq<Scalar>>, table: string,
                        read: string, params: Option<seq<Scalar>>, now: int, h: Handle)
    returns (written: Result<Payload>, after: Result<Payload>)
    requires !IsRead(write) && ExtractTableName(write) == Some(table)
    requires IsRead(read) && Contains(CacheKey(read, params), table)
    modifies db
    ensures after == Fetched(h, read, ParamsOrEmpty(params))
    ensures db.issued == old(db.issued) + [Run(write, ParamsOrEmpty(wparams)), All(read, ParamsOrEmpty(params))]
  {
    written := db.Query(write, wparams, now, h);
    InvalidatedMisses(old(db.cache), write, table, CacheKey(read, params), now);
    after := db.Query(read, params, now, h);
    AppendTwo(old(db.issued), Run(write, ParamsOrEmpty(wparams)), All(read, ParamsOrEmpty(params)));
  }
}
