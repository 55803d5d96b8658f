/**
 * The admin dashboard's data shaping: the decoded reply of the responses
 * endpoint becomes one submission record per sheet row, sorted newest
 * first; the page then filters by role, shows the 25 first rows and counts
 * roles and primary styles and drivers.
 *
 * The HTTP request and the JSON decoding are not modelled: `Load` receives
 * the decoded reply. Date parsing is the parameter `parse`, which returns
 * the milliseconds of a valid date and `None` for an invalid one.
 */
module Dashboard {
  import opened Wrappers
  import opened EntrySort

  /** A sheet cell as decoded from JSON: `null`/`undefined` or a text value. */
  type Cell = Option<string>

  /** The decoded reply `{status, message, columns, rows}`; absent members are `None`. */
  datatype Response = Response(
    status: string,
    message: Option<string>,
    columns: Option<seq<string>>,
    rows: Option<seq<seq<Cell>>>)

  /** One parsed submission; `timestamp` holds the parsed milliseconds, `None` for `null`. */
  datatype Submission = Submission(
    id: nat,
    timestamp: Option<int>,
    timestampRaw: string,
    name: string,
    email: string,
    primaryComm: string,
    secondaryComm: string,
    primaryMotiv: string,
    secondaryMotiv: string,
    role: string)

  const UNKNOWN_ERROR: string := "Unknown error from Apps Script"

  /** What the thrown error carries: `data.message || "Unknown error from Apps Script"`. */
  function ErrorMessage(data: Response): (msg: string)
    ensures msg != []
    ensures data.message.Some? && data.message.value != [] ==> msg == data.message.value
    ensures data.message.None? || data.message.value == [] ==> msg == UNKNOWN_ERROR
  {
    match data.message
    case Some(m) => if m != [] then m else UNKNOWN_ERROR
    case None => UNKNOWN_ERROR
  }

  /** `cols.indexOf(name)`: the first position of `name`, or -1 when it is absent. */
  function ColIndex(cols: seq<string>, name: string): (i: int)
    ensures -1 <= i < |cols|
    ensures i == -1 <==> name !in cols
    ensures 0 <= i ==> cols[i] == name && forall k :: 0 <= k < i ==> cols[k] != name
  {
    if cols == [] then -1
    else if cols[0] == name then 0
    else
      var j := ColIndex(cols[1..], name);
      if j == -1 then -1 else j + 1
  }

  /** `row[idx] ?? ""`: a missing column (index -1), a short row and a `null` cell all read as "". */
  function CellAt(row: seq<Cell>, idx: int): string
  {
    if 0 <= idx < |row| then row[idx].GetOr("") else ""
  }

  /** The positions of the named columns, resolved once per reply. */
  datatype Layout = Layout(
    ts: int, name: int, email: int, primaryComm: int, secondaryComm: int,
    primaryMotiv: int, secondaryMotiv: int, role: int)

  function LayoutOf(cols: seq<string>): Layout
  {
    Layout(ColIndex(cols, "Timestamp"), ColIndex(cols, "Name"), ColIndex(cols, "Email"),
      ColIndex(cols, "PrimaryComm"), ColIndex(cols, "SecondaryComm"),
      ColIndex(cols, "PrimaryMotiv"), ColIndex(cols, "SecondaryMotiv"), ColIndex(cols, "Role"))
  }

  /** The record for row `i`: the timestamp is parsed only when its cell is non-empty. */
  function ParseRow(row: seq<Cell>, i: nat, at: Layout, parse: string -> Option<int>): Submission
  {
    var raw := CellAt(row, at.ts);
    Submission(
      i,
      if raw == [] then None else parse(raw),
      raw,
      CellAt(row, at.name), CellAt(row, at.email),
      CellAt(row, at.primaryComm), CellAt(row, at.secondaryComm),
      CellAt(row, at.primaryMotiv), CellAt(row, at.secondaryMotiv),
      CellAt(row, at.role))
  }

  /** `(data.rows || []).map(...)` over the columns `data.columns || []`. */
  function ParseRows(data: Response, parse: string -> Option<int>): (parsed: seq<Submission>)
    ensures var rows := data.rows.GetOr([]);
      && |parsed| == |rows|
      && forall i :: 0 <= i < |rows| ==>
           parsed[i] == ParseRow(rows[i], i, LayoutOf(data.columns.GetOr([])), parse)
  {
    var rows := data.rows.GetOr([]);
    var at := LayoutOf(data.columns.GetOr([]));
    seq(|rows|, i requires 0 <= i < |rows| => ParseRow(rows[i], i, at, parse))
  }

  /** One record per row, in retrieval order: each record's `id` is its row's index. */
  lemma ParsedIds(data: Response, parse: string -> Option<int>)
    ensures var parsed := ParseRows(data, parse);
      |parsed| == |data.rows.GetOr([])| && forall i :: 0 <= i < |parsed| ==> parsed[i].id == i
  {
  }

  /** The reply does not name `column`, or this row has no value under it (`null` or past its end). */
  ghost predicate Blank(cols: seq<string>, row: seq<Cell>, column: string)
  {
    column !in cols || ColIndex(cols, column) >= |row| || row[ColIndex(cols, column)].None?
  }

  /** A blank column reads as "" in the record, whichever field it feeds. */
  lemma MissingColumns(data: Response, parse: string -> Option<int>, i: nat)
    requires i < |data.rows.GetOr([])|
    ensures var r := ParseRows(data, parse)[i];
      var cols := data.columns.GetOr([]);
      var row := data.rows.GetOr([])[i];
      && (Blank(cols, row, "Name") ==> r.name == "")
      && (Blank(cols, row, "Email") ==> r.email == "")
      && (Blank(cols, row, "PrimaryComm") ==> r.primaryComm == "")
      && (Blank(cols, row, "SecondaryComm") ==> r.secondaryComm == "")
      && (Blank(cols, row, "PrimaryMotiv") ==> r.primaryMotiv == "")
      && (Blank(cols, row, "SecondaryMotiv") ==> r.secondaryMotiv == "")
      && (Blank(cols, row, "Role") ==> r.role == "")
  {
  }

  /**
   * `timestamp` is `null` exactly when the raw cell is empty or does not
   * parse; otherwise it is the parsed time. `timestampRaw` is the cell or "".
   */
  lemma TimestampParsed(data: Response, parse: string -> Option<int>, i: nat)
    requires i < |data.rows.GetOr([])|
    ensures var r := ParseRows(data, parse)[i];
      var raw := CellAt(data.rows.GetOr([])[i], ColIndex(data.columns.GetOr([]), "Timestamp"));
      && r.timestampRaw == raw
      && (r.timestamp.None? <==> raw == [] || parse(raw).None?)
      && (r.timestamp.Some? ==> r.timestamp == parse(raw))
  {
  }

  // ---------------------------------------------------------------------
  // Newest first.

  /** The comparator: newer first when both rows are dated, "equal" (0) when either is not. */
  function Compare(a: Submission, b: Submission): int
  {
    if a.timestamp.Some? && b.timestamp.Some? then b.timestamp.value - a.timestamp.value else 0
  }

  ghost predicate AllDated(s: seq<Submission>)
  {
    forall k :: 0 <= k < |s| ==> s[k].timestamp.Some?
  }

  /** No pair is out of order for the comparator: each dated row is at least as recent as every later one. */
  ghost predicate NewestFirst(s: seq<Submission>)
  {
    forall i, j :: 0 <= i < j < |s| ==> Compare(s[i], s[j]) <= 0
  }

  /** With every row dated, `NewestFirst` is exactly "timestamps never increase". */
  lemma NewestFirstMeansDescending(s: seq<Submission>)
    requires AllDated(s)
    ensures NewestFirst(s) <==>
      forall i, j :: 0 <= i < j < |s| ==> s[i].timestamp.value >= s[j].timestamp.value
  {
  }

  /**
   * `parsed.sort(comparator)` as an insertion sort on the array: each row
   * moves left past the rows the comparator puts after it. The result is a
   * rearrangement of the rows; when all of them are dated it is newest first.
   */
  method SortNewestFirst(a: array<Submission>)
    modifies a
    ensures multiset(a[..]) == multiset(old(a[..]))
    ensures AllDated(old(a[..])) ==> NewestFirst(a[..])
  {
    ghost var dated := AllDated(a[..]);
    if a.Length == 0 {
      return;
    }
    var i := 1;
    while i < a.Length
      invariant 1 <= i <= a.Length
      invariant multiset(a[..]) == multiset(old(a[..]))
      invariant dated ==> AllDated(a[..]) && NewestFirst(a[..i])
      decreases a.Length - i
    {
      SinkLeft(a, i, dated);
      i := i + 1;
    }
    assert a[..a.Length] == a[..];
  }

  /** One insertion step: `a[i]` moves left while the comparator puts its left neighbour after it. */
  method SinkLeft(a: array<Submission>, i: nat, ghost dated: bool)
    requires 0 < i < a.Length
    requires dated ==> AllDated(a[..]) && NewestFirst(a[..i])
    modifies a
    ensures multiset(a[..]) == multiset(old(a[..]))
    ensures dated ==> AllDated(a[..]) && NewestFirst(a[..i + 1])
  {
    var j := i;
    if dated {
      SinkStart(a[..], i);
    }
    while j > 0 && Compare(a[j - 1], a[j]) > 0
      invariant 0 <= j <= i
      invariant multiset(a[..]) == multiset(old(a[..]))
      invariant dated ==> Sinking(a[..], i, j)
      decreases j
    {
      ghost var before := a[..];
      a[j - 1], a[j] := a[j], a[j - 1];
      if dated {
        assert a[..] == before[j - 1 := before[j]][j := before[j - 1]];
        SinkStep(before, i, j);
      }
      j := j - 1;
    }
    if dated {
      SinkDone(a[..], i, j);
    }
  }

  /**
   * While `s[j]` sinks into `s[..i + 1]`: every row is dated, the rows other
   * than `s[j]` are in order, and `s[j]` is at least as recent as every row
   * after it.
   */
  ghost predicate Sinking(s: seq<Submission>, i: nat, j: nat)
  {
    && j <= i < |s| && AllDated(s)
    && (forall p, q :: 0 <= p < q <= i && p != j && q != j ==> Compare(s[p], s[q]) <= 0)
    && (forall q :: j < q <= i ==> Compare(s[j], s[q]) <= 0)
  }

  lemma SinkStart(s: seq<Submission>, i: nat)
    requires i < |s| && AllDated(s) && NewestFirst(s[..i])
    ensures Sinking(s, i, i)
  {
    forall p, q | 0 <= p < q <= i && p != i && q != i
      ensures Compare(s[p], s[q]) <= 0
    {
      assert s[p] == s[..i][p] && s[q] == s[..i][q];
    }
  }

  lemma SinkStep(s: seq<Submission>, i: nat, j: nat)
    requires 0 < j && Sinking(s, i, j) && Compare(s[j - 1], s[j]) > 0
    ensures Sinking(s[j - 1 := s[j]][j := s[j - 1]], i, j - 1)
  {
  }

  lemma SinkDone(s: seq<Submission>, i: nat, j: nat)
    requires Sinking(s, i, j) && (j == 0 || Compare(s[j - 1], s[j]) <= 0)
    ensures AllDated(s) && NewestFirst(s[..i + 1])
  {
    var t := s[..i + 1];
    forall p, q | 0 <= p < q < |t|
      ensures Compare(t[p], t[q]) <= 0
    {
      if q == j && p < j - 1 {
        assert Compare(s[p], s[j - 1]) <= 0;
      }
    }
  }

  // ---------------------------------------------------------------------
  // Filtering and the recent rows.

  /** `rows.filter((r) => r.role === role)`. */
  function FilterRole(rows: seq<Submission>, role: string): (kept: seq<Submission>)
    ensures |kept| <= |rows|
    ensures forall k :: 0 <= k < |kept| ==> kept[k].role == role
    ensures forall x :: x in kept <==> x in rows && x.role == role
  {
    if rows == [] then []
    else (if rows[0].role == role then [rows[0]] else []) + FilterRole(rows[1..], role)
  }

  /** The filter keeps the original order: filtering a concatenation filters each part in place. */
  lemma {:induction false} FilterRoleAppend(a: seq<Submission>, b: seq<Submission>, role: string)
    ensures FilterRole(a + b, role) == FilterRole(a, role) + FilterRole(b, role)
  {
    if a == [] {
      assert a + b == b;
    } else {
      assert (a + b)[0] == a[0];
      assert (a + b)[1..] == a[1..] + b;
      FilterRoleAppend(a[1..], b, role);
    }
  }

  const ALL_ROLES: string := "All"

  /** `filteredRows`: every row for "All", otherwise the rows of the chosen role. */
  function FilteredRows(rows: seq<Submission>, roleFilter: string): (shown: seq<Submission>)
    ensures roleFilter == ALL_ROLES ==> shown == rows
    ensures roleFilter != ALL_ROLES ==> forall x :: x in shown <==> x in rows && x.role == roleFilter
  {
    if roleFilter == ALL_ROLES then rows else FilterRole(rows, roleFilter)
  }

  const RECENT_LIMIT: nat := 25

  /** `filteredRows.slice(0, 25)`: the first min(25, n) rows. */
  function Recent(rows: seq<Submission>): (recent: seq<Submission>)
    ensures |recent| == if |rows| < RECENT_LIMIT then |rows| else RECENT_LIMIT
    ensures forall k :: 0 <= k < |recent| ==> recent[k] == rows[k]
  {
    if |rows| < RECENT_LIMIT then rows else rows[..RECENT_LIMIT]
  }

  // ---------------------------------------------------------------------
  // Count maps. A plain object used as a counter keeps its keys in
  // insertion order; it is modelled as a list of (key, count) entries.

  type Counts = seq<(string, int)>

  /** `map[key] || 0`. */
  function Lookup(counts: Counts, key: string): int
  {
    if counts == [] then 0
    else if counts[0].0 == key then counts[0].1
    else Lookup(counts[1..], key)
  }

  /** `map[key] = (map[key] || 0) + 1`: a known key keeps its place, a new one goes last. */
  function Bump(counts: Counts, key: string): (r: Counts)
    ensures |r| == |counts| || |r| == |counts| + 1
  {
    if counts == [] then [(key, 1)]
    else if counts[0].0 == key then [(key, counts[0].1 + 1)] + counts[1..]
    else [counts[0]] + Bump(counts[1..], key)
  }

  /** The counter after one `forEach` pass over `keys`. */
  function Tally(keys: seq<string>): Counts
  {
    if keys == [] then [] else Bump(Tally(keys[..|keys| - 1]), keys[|keys| - 1])
  }

  function Total(counts: Counts): int
  {
    if counts == [] then 0 else counts[0].1 + Total(counts[1..])
  }

  ghost predicate DistinctKeys(counts: Counts)
  {
    forall p, q :: 0 <= p < q < |counts| ==> counts[p].0 != counts[q].0
  }

  /** The first position of `k` in `keys`, or `|keys|` when it does not occur. */
  function FirstAt(keys: seq<string>, k: string): (i: nat)
    ensures i <= |keys|
    ensures i < |keys| <==> k in keys
    ensures i < |keys| ==> keys[i] == k
    ensures forall p :: 0 <= p < i ==> keys[p] != k
  {
    if keys == [] then 0
    else if keys[0] == k then 0
    else 1 + FirstAt(keys[1..], k)
  }

  lemma {:induction false} BumpLookup(counts: Counts, key: string, k: string)
    ensures Lookup(Bump(counts, key), k) == Lookup(counts, k) + (if k == key then 1 else 0)
  {
    if counts != [] && counts[0].0 != key {
      BumpLookup(counts[1..], key, k);
    }
  }

  lemma {:induction false} BumpTotal(counts: Counts, key: string)
    ensures Total(Bump(counts, key)) == Total(counts) + 1
  {
    if counts != [] && counts[0].0 != key {
      BumpTotal(counts[1..], key);
    }
  }

  /** The keys of `Bump(counts, key)`: those of `counts`, in order, then `key` if it was new. */
  lemma {:induction false} BumpKeys(counts: Counts, key: string)
    ensures var r := Bump(counts, key);
      && (|r| == |counts| <==> exists p :: 0 <= p < |counts| && counts[p].0 == key)
      && (forall p :: 0 <= p < |counts| ==> r[p].0 == counts[p].0)
      && (|r| == |counts| + 1 ==> r[|counts|].0 == key)
  {
    if counts != [] {
      if counts[0].0 != key {
        BumpKeys(counts[1..], key);
        var r := Bump(counts, key);
        if |r| == |counts| {
          var p :| 0 <= p < |counts[1..]| && counts[1..][p].0 == key;
          assert counts[p + 1].0 == key;
        }
        if exists p :: 0 <= p < |counts| && counts[p].0 == key {
          var p :| 0 <= p < |counts| && counts[p].0 == key;
          assert p > 0 && counts[1..][p - 1].0 == key;
        }
      }
    }
  }

  /** Each key's count is the number of times it occurs. */
  lemma {:induction false} TallyCounts(keys: seq<string>, k: string)
    ensures Lookup(Tally(keys), k) == multiset(keys)[k]
  {
    if keys != [] {
      var init := keys[..|keys| - 1];
      var last := keys[|keys| - 1];
      assert keys == init + [last];
      TallyCounts(init, k);
      BumpLookup(Tally(init), last, k);
    }
  }

  /** The counts add up to the number of keys counted. */
  lemma {:induction false} TallyTotal(keys: seq<string>)
    ensures Total(Tally(keys)) == |keys|
  {
    if keys != [] {
      TallyTotal(keys[..|keys| - 1]);
      BumpTotal(Tally(keys[..|keys| - 1]), keys[|keys| - 1]);
    }
  }

  /** The counter holds exactly the keys that occur. */
  lemma {:induction false} TallyKeys(keys: seq<string>)
    ensures forall p :: 0 <= p < |Tally(keys)| ==> Tally(keys)[p].0 in keys
    ensures forall k :: k in keys ==> exists p :: 0 <= p < |Tally(keys)| && Tally(keys)[p].0 == k
  {
    if keys != [] {
      var init := keys[..|keys| - 1];
      var last := keys[|keys| - 1];
      assert keys == init + [last];
      TallyKeys(init);
      BumpKeys(Tally(init), last);
      TallyStepKeys(init, last, Tally(init), Tally(keys));
    }
  }

  lemma TallyStepKeys(init: seq<string>, last: string, t0: Counts, t: Counts)
    requires forall p :: 0 <= p < |t0| ==> t0[p].0 in init
    requires forall k :: k in init ==> exists p :: 0 <= p < |t0| && t0[p].0 == k
    requires |t| == |t0| <==> exists p :: 0 <= p < |t0| && t0[p].0 == last
    requires |t| == |t0| || |t| == |t0| + 1
    requires forall p :: 0 <= p < |t0| ==> t[p].0 == t0[p].0
    requires |t| == |t0| + 1 ==> t[|t0|].0 == last
    ensures forall p :: 0 <= p < |t| ==> t[p].0 in init + [last]
    ensures forall k :: k in init + [last] ==> exists p :: 0 <= p < |t| && t[p].0 == k
  {
    forall k | k in init + [last]
      ensures exists p :: 0 <= p < |t| && t[p].0 == k
    {
      if k in init {
        var p :| 0 <= p < |t0| && t0[p].0 == k;
        assert t[p].0 == k;
      } else {
        assert k == last && |t| == |t0| + 1;
        assert t[|t0|].0 == k;
      }
    }
  }

  /** The counter lists its keys in the order of their first occurrence, each once. */
  lemma {:induction false} TallyOrder(keys: seq<string>)
    ensures forall p, q :: 0 <= p < q < |Tally(keys)| ==>
      FirstAt(keys, Tally(keys)[p].0) < FirstAt(keys, Tally(keys)[q].0)
  {
    if keys != [] {
      var init := keys[..|keys| - 1];
      var last := keys[|keys| - 1];
      assert keys == init + [last];
      TallyOrder(init);
      TallyKeys(init);
      var t0 := Tally(init);
      var t := Tally(keys);
      BumpKeys(t0, last);
      TallyStepOrder(init, last, t0, t);
    }
  }

  lemma TallyStepOrder(init: seq<string>, last: string, t0: Counts, t: Counts)
    requires forall p, q :: 0 <= p < q < |t0| ==> FirstAt(init, t0[p].0) < FirstAt(init, t0[q].0)
    requires forall p :: 0 <= p < |t0| ==> t0[p].0 in init
    requires forall k :: k in init ==> exists p :: 0 <= p < |t0| && t0[p].0 == k
    requires |t| == |t0| <==> exists p :: 0 <= p < |t0| && t0[p].0 == last
    requires |t| == |t0| || |t| == |t0| + 1
    requires forall p :: 0 <= p < |t0| ==> t[p].0 == t0[p].0
    requires |t| == |t0| + 1 ==> t[|t0|].0 == last
    ensures forall p, q :: 0 <= p < q < |t| ==> FirstAt(init + [last], t[p].0) < FirstAt(init + [last], t[q].0)
  {
    var full := init + [last];
    forall p | 0 <= p < |t0|
      ensures FirstAt(full, t[p].0) == FirstAt(init, t0[p].0) < |init|
    {
      FirstAtAppend(init, [last], t0[p].0);
    }
    if |t| == |t0| + 1 {
      assert last !in init;
      FirstAtAppend(init, [last], last);
      assert FirstAt(full, t[|t0|].0) == |init|;
    }
    forall p, q | 0 <= p < q < |t|
      ensures FirstAt(full, t[p].0) < FirstAt(full, t[q].0)
    {
      if q < |t0| {
        assert FirstAt(init, t0[p].0) < FirstAt(init, t0[q].0);
      }
    }
  }

  lemma {:induction false} FirstAtAppend(a: seq<string>, b: seq<string>, k: string)
    ensures FirstAt(a + b, k) == if k in a then FirstAt(a, k) else |a| + FirstAt(b, k)
  {
    if a == [] {
      assert a + b == b;
    } else {
      assert (a + b)[0] == a[0];
      assert (a + b)[1..] == a[1..] + b;
      assert k in a <==> a[0] == k || k in a[1..];
      FirstAtAppend(a[1..], b, k);
    }
  }
  /** `r.role || "Unknown"`. */
  function RoleKey(r: Submission): (key: string)
    ensures key != []
    ensures r.role != [] ==> key == r.role
  {
    if r.role == [] then "Unknown" else r.role
  }

  /** The keys `roleCounts` counts, one per row. */
  function RoleKeys(rows: seq<Submission>): (keys: seq<string>)
    ensures |keys| == |rows| && forall i :: 0 <= i < |rows| ==> keys[i] == RoleKey(rows[i])
  {
    seq(|rows|, i requires 0 <= i < |rows| => RoleKey(rows[i]))
  }

  /** The values a `if (!v) return;` guard lets through, in order. */
  function Present(values: seq<string>): (kept: seq<string>)
  {
    if values == [] then []
    else Present(values[..|values| - 1]) + (if values[|values| - 1] == [] then [] else [values[|values| - 1]])
  }

  /** Skipping empty values drops exactly the empty ones. */
  lemma {:induction false} PresentCounts(values: seq<string>, k: string)
    ensures multiset(Present(values))[k] == if k == [] then 0 else multiset(values)[k]
  {
    if values != [] {
      var init := values[..|values| - 1];
      assert values == init + [values[|values| - 1]];
      PresentCounts(init, k);
    }
  }

  function CommValues(rows: seq<Submission>): (values: seq<string>)
    ensures |values| == |rows| && forall i :: 0 <= i < |rows| ==> values[i] == rows[i].primaryComm
  {
    seq(|rows|, i requires 0 <= i < |rows| => rows[i].primaryComm)
  }

  function MotivValues(rows: seq<Submission>): (values: seq<string>)
    ensures |values| == |rows| && forall i :: 0 <= i < |rows| ==> values[i] == rows[i].primaryMotiv
  {
    seq(|rows|, i requires 0 <= i < |rows| => rows[i].primaryMotiv)
  }

  /** `roleCounts`: one `forEach` over the rows, counting each under its role or "Unknown". */
  method CountRoles(rows: seq<Submission>) returns (counts: Counts)
    ensures counts == Tally(RoleKeys(rows))
  {
    counts := [];
    var i := 0;
    while i < |rows|
      invariant 0 <= i <= |rows|
      invariant counts == Tally(RoleKeys(rows)[..i])
    {
      var key := if rows[i].role == [] then "Unknown" else rows[i].role;
      assert RoleKeys(rows)[..i + 1][..i] == RoleKeys(rows)[..i];
      counts := Bump(counts, key);
      i := i + 1;
    }
    assert RoleKeys(rows)[..|rows|] == RoleKeys(rows);
  }

  /**
   * `primaryCommCounts` and `primaryMotivCounts`: one `forEach` over the
   * values, skipping empty ones and counting the rest.
   */
  method CountPresent(values: seq<string>) returns (counts: Counts)
    ensures counts == Tally(Present(values))
  {
    counts := [];
    var i := 0;
    while i < |values|
      invariant 0 <= i <= |values|
      invariant counts == Tally(Present(values[..i]))
    {
      assert values[..i + 1][..i] == values[..i];
      if values[i] != [] {
        assert Present(values[..i + 1]) == Present(values[..i]) + [values[i]];
        assert (Present(values[..i]) + [values[i]])[..|Present(values[..i])|] == Present(values[..i]);
        counts := Bump(counts, values[i]);
      } else {
        assert Present(values[..i + 1]) == Present(values[..i]);
      }
      i := i + 1;
    }
    assert values[..|values|] == values;
  }

  /** Every row is counted once: the role counts add up to the number of rows. */
  lemma RoleCountsTotal(rows: seq<Submission>)
    ensures Total(Tally(RoleKeys(rows))) == |rows|
  {
    TallyTotal(RoleKeys(rows));
  }

  /**
   * A role's count is the number of rows with that role, except that
   * "Unknown" also counts the rows whose role is empty.
   */
  lemma RoleCountsCount(rows: seq<Submission>, role: string)
    requires role != []
    ensures var roles := Roles(rows);
      Lookup(Tally(RoleKeys(rows)), role)
      == multiset(roles)[role] + (if role == "Unknown" then multiset(roles)[[]] else 0)
  {
    TallyCounts(RoleKeys(rows), role);
    RoleKeysCount(rows, role);
  }

  /** `RoleCountsCount` for every role at once. */
  lemma RoleCountsAll(rows: seq<Submission>)
    ensures forall role :: role != [] ==>
      Lookup(Tally(RoleKeys(rows)), role)
      == multiset(Roles(rows))[role] + (if role == "Unknown" then multiset(Roles(rows))[[]] else 0)
  {
    forall role | role != []
      ensures Lookup(Tally(RoleKeys(rows)), role)
        == multiset(Roles(rows))[role] + (if role == "Unknown" then multiset(Roles(rows))[[]] else 0)
    {
      RoleCountsCount(rows, role);
    }
  }

  /** The raw role of each row. */
  function Roles(rows: seq<Submission>): (roles: seq<string>)
    ensures |roles| == |rows| && forall i :: 0 <= i < |rows| ==> roles[i] == rows[i].role
  {
    seq(|rows|, i requires 0 <= i < |rows| => rows[i].role)
  }

  lemma RowsSnoc(rows: seq<Submission>)
    requires rows != []
    ensures var init := rows[..|rows| - 1];
      && RoleKeys(rows) == RoleKeys(init) + [RoleKey(rows[|rows| - 1])]
      && Roles(rows) == Roles(init) + [rows[|rows| - 1].role]
  {
    var init := rows[..|rows| - 1];
    assert RoleKeys(rows) == RoleKeys(init) + [RoleKey(rows[|rows| - 1])];
  }

  lemma CountSnoc(s: seq<string>, x: string, k: string)
    ensures multiset(s + [x])[k] == multiset(s)[k] + (if x == k then 1 else 0)
  {
  }

  lemma {:induction false} RoleKeysCount(rows: seq<Submission>, key: string)
    requires key != []
    ensures multiset(RoleKeys(rows))[key]
      == multiset(Roles(rows))[key] + (if key == "Unknown" then multiset(Roles(rows))[[]] else 0)
  {
    if rows != [] {
      var init := rows[..|rows| - 1];
      var last := rows[|rows| - 1];
      RoleKeysCount(init, key);
      RowsSnoc(rows);
      CountSnoc(RoleKeys(init), RoleKey(last), key);
      CountSnoc(Roles(init), last.role, key);
      CountSnoc(Roles(init), last.role, []);
    }
  }

  /** The primary counts add up to the number of rows with a non-empty value. */
  lemma PresentCountsTotal(values: seq<string>)
    ensures Total(Tally(Present(values))) == |values| - multiset(values)[[]]
  {
    TallyTotal(Present(values));
    PresentSize(values);
  }

  /** Each non-empty value's count is its number of occurrences. */
  lemma PresentLookups(values: seq<string>)
    ensures forall k :: k != [] ==> Lookup(Tally(Present(values)), k) == multiset(values)[k]
  {
    forall k | k != []
      ensures Lookup(Tally(Present(values)), k) == multiset(values)[k]
    {
      TallyCounts(Present(values), k);
      PresentCounts(values, k);
    }
  }

  lemma {:induction false} PresentSize(values: seq<string>)
    ensures |Present(values)| == |values| - multiset(values)[[]]
  {
    if values != [] {
      var init := values[..|values| - 1];
      assert values == init + [values[|values| - 1]];
      PresentSize(init);
    }
  }

  /** No key is listed twice. */
  lemma TallyDistinct(keys: seq<string>)
    ensures DistinctKeys(Tally(keys))
  {
    TallyOrder(keys);
  }

  /** With distinct keys, looking up an entry's key finds that entry's count. */
  lemma {:induction false} LookupAt(counts: Counts, q: nat)
    requires DistinctKeys(counts) && q < |counts|
    ensures Lookup(counts, counts[q].0) == counts[q].1
  {
    if q > 0 {
      assert counts[0].0 != counts[q].0;
      assert counts[1..][q - 1] == counts[q];
      LookupAt(counts[1..], q - 1);
    }
  }

  // ---------------------------------------------------------------------
  // "Most common".

  const NO_VALUE: string := "\U{2014}"

  /** `Object.entries(counts).sort((a, b) => b[1] - a[1])[0][0]`, or "—" for an empty map. */
  function MostCommon(counts: Counts): string
  {
    if counts == [] then NO_VALUE else SortDesc(counts)[0].0
  }

  /** The stable sort puts first the earliest entry with the highest count. */
  lemma MostCommonFirstMax(counts: Counts)
    requires counts != []
    ensures MostCommon(counts) == counts[FirstMaxIndex(counts)].0
    ensures forall k :: 0 <= k < |counts| ==> counts[k].1 <= counts[FirstMaxIndex(counts)].1
    ensures forall k :: 0 <= k < FirstMaxIndex(counts) ==> counts[k].1 < counts[FirstMaxIndex(counts)].1
  {
    SortDescHead(counts);
    FirstMaxIndexIsFirstMax(counts);
  }

  /**
   * Over a counter built from `keys`: "most common" is "—" exactly when
   * nothing was counted; otherwise it is a counted key that occurs at least
   * as often as any other, and among the keys that occur as often it is the
   * one that occurred first.
   */
  lemma MostCommonOfTally(keys: seq<string>)
    ensures keys == [] ==> MostCommon(Tally(keys)) == NO_VALUE
    ensures keys != [] ==>
      var m := MostCommon(Tally(keys));
      && m in keys
      && (forall k :: k in keys ==> multiset(keys)[k] <= multiset(keys)[m])
      && (forall k :: k in keys && multiset(keys)[k] == multiset(keys)[m] ==> FirstAt(keys, m) <= FirstAt(keys, k))
  {
    if keys != [] {
      var t := Tally(keys);
      TallyKeys(keys);
      TallyOrder(keys);
      TallyEntryCounts(keys);
      assert keys[0] in keys;
      MostCommonFirstMax(t);
      FirstMaxOfTally(keys, t, FirstMaxIndex(t));
    }
  }

  /**
   * A "most common primary" card: "—" when no row has the value; otherwise
   * a non-empty value of some row that no other non-empty value outnumbers,
   * and among those tied with it, the one met first.
   */
  lemma MostCommonPresent(values: seq<string>)
    ensures (forall v :: v in values ==> v == []) ==> MostCommon(Tally(Present(values))) == NO_VALUE
    ensures (exists v :: v in values && v != []) ==>
      var m := MostCommon(Tally(Present(values)));
      && m != [] && m in values
      && (forall k :: k != [] ==> multiset(values)[k] <= multiset(values)[m])
      && (forall k :: k != [] && multiset(values)[k] == multiset(values)[m] ==>
            FirstAt(Present(values), m) <= FirstAt(Present(values), k))
  {
    var p := Present(values);
    MostCommonOfTally(p);
    PresentEmpty(values);
    if p != [] {
      var m := MostCommon(Tally(p));
      PresentMember(values, m);
      forall k | k != []
        ensures multiset(values)[k] <= multiset(values)[m]
        ensures multiset(values)[k] == multiset(values)[m] ==> FirstAt(p, m) <= FirstAt(p, k)
      {
        PresentCounts(values, k);
        PresentCounts(values, m);
      }
    }
  }

  /** A value survives the guard exactly when it occurs and is non-empty. */
  lemma PresentMember(values: seq<string>, k: string)
    ensures k in Present(values) <==> k in values && k != []
  {
    PresentCounts(values, k);
    assert k in Present(values) <==> multiset(Present(values))[k] > 0;
    assert k in values <==> multiset(values)[k] > 0;
  }

  /** Nothing survives the guard exactly when every value is empty. */
  lemma PresentEmpty(values: seq<string>)
    ensures Present(values) == [] <==> forall v :: v in values ==> v == []
  {
    if Present(values) != [] {
      PresentMember(values, Present(values)[0]);
    }
    if v :| v in values && v != [] {
      PresentMember(values, v);
    }
  }

  /** Each entry of the counter holds its key's number of occurrences. */
  lemma TallyEntryCounts(keys: seq<string>)
    ensures forall q :: 0 <= q < |Tally(keys)| ==> Tally(keys)[q].1 == multiset(keys)[Tally(keys)[q].0]
  {
    var t := Tally(keys);
    TallyDistinct(keys);
    forall q | 0 <= q < |t|
      ensures t[q].1 == multiset(keys)[t[q].0]
    {
      TallyCounts(keys, t[q].0);
      LookupAt(t, q);
    }
  }

  /** The first entry with the highest count names the most frequent key that occurred first. */
  lemma FirstMaxOfTally(keys: seq<string>, t: Counts, i: nat)
    requires i < |t|
    requires forall q :: 0 <= q < |t| ==> t[q].0 in keys
    requires forall k :: k in keys ==> exists q :: 0 <= q < |t| && t[q].0 == k
    requires forall p, q :: 0 <= p < q < |t| ==> FirstAt(keys, t[p].0) < FirstAt(keys, t[q].0)
    requires forall q :: 0 <= q < |t| ==> t[q].1 == multiset(keys)[t[q].0]
    requires forall q :: 0 <= q < |t| ==> t[q].1 <= t[i].1
    requires forall q :: 0 <= q < i ==> t[q].1 < t[i].1
    ensures t[i].0 in keys
    ensures forall k :: k in keys ==> multiset(keys)[k] <= multiset(keys)[t[i].0]
    ensures forall k :: k in keys && multiset(keys)[k] == multiset(keys)[t[i].0] ==> FirstAt(keys, t[i].0) <= FirstAt(keys, k)
  {
    forall k | k in keys
      ensures multiset(keys)[k] <= multiset(keys)[t[i].0]
      ensures multiset(keys)[k] == multiset(keys)[t[i].0] ==> FirstAt(keys, t[i].0) <= FirstAt(keys, k)
    {
      var q :| 0 <= q < |t| && t[q].0 == k;
      EntryAgainstMax(keys, t, i, q);
    }
  }

  /** One entry compared with the first entry of highest count. */
  lemma EntryAgainstMax(keys: seq<string>, t: Counts, i: nat, q: nat)
    requires i < |t| && q < |t|
    requires t[q].1 == multiset(keys)[t[q].0] && t[i].1 == multiset(keys)[t[i].0]
    requires t[q].1 <= t[i].1
    requires q < i ==> t[q].1 < t[i].1
    requires i < q ==> FirstAt(keys, t[i].0) < FirstAt(keys, t[q].0)
    ensures multiset(keys)[t[q].0] <= multiset(keys)[t[i].0]
    ensures multiset(keys)[t[q].0] == multiset(keys)[t[i].0] ==> FirstAt(keys, t[i].0) <= FirstAt(keys, t[q].0)
  {
  }

  // ---------------------------------------------------------------------
  // The page state.

  const OK_STATUS: string := "ok"

  /** The dashboard's state: the loaded rows, the loading flag, the error shown and the role filter. */
  class AdminDashboard {
    var rows: seq<Submission>
    var loading: bool
    var error: Option<string>
    var roleFilter: string

    /** The initial state: no rows, loading, no error, every role. */
    constructor ()
      ensures rows == [] && loading && error == None && roleFilter == ALL_ROLES
    {
      rows := [];
      loading := true;
      error := None;
      roleFilter := ALL_ROLES;
    }

    /**
     * `load` once the reply is decoded. A status other than "ok" shows the
     * reply's message (or the fallback) and keeps the rows as they were;
     * otherwise the parsed rows replace them, sorted newest first. Either
     * way loading ends; the role filter is untouched.
     */
    method Load(data: Response, parse: string -> Option<int>)
      modifies this
      ensures !loading && roleFilter == old(roleFilter)
      ensures data.status != OK_STATUS ==> rows == old(rows) && error == Some(ErrorMessage(data))
      ensures data.status == OK_STATUS ==>
        && error == None
        && multiset(rows) == multiset(ParseRows(data, parse))
        && (AllDated(ParseRows(data, parse)) ==> NewestFirst(rows))
    {
      loading := true;
      error := None;
      if data.status != OK_STATUS {
        error := Some(ErrorMessage(data));
        loading := false;
        return;
      }
      var parsed := ParseRows(data, parse);
      var a := new Submission[|parsed|](i requires 0 <= i < |parsed| => parsed[i]);
      assert a[..] == parsed;
      SortNewestFirst(a);
      rows := a[..];
      loading := false;
    }

    /** `filteredRows` for the current filter. */
    function Filtered(): (shown: seq<Submission>)
      reads this
      ensures roleFilter == ALL_ROLES ==> shown == rows
      ensures roleFilter != ALL_ROLES ==> forall x :: x in shown <==> x in rows && x.role == roleFilter
    {
      FilteredRows(rows, roleFilter)
    }

    /** `recent`: the first 25 filtered rows. */
    function RecentRows(): (recent: seq<Submission>)
      reads this
      ensures |recent| == if |Filtered()| < RECENT_LIMIT then |Filtered()| else RECENT_LIMIT
      ensures forall k :: 0 <= k < |recent| ==> recent[k] == Filtered()[k]
    {
      Recent(Filtered())
    }

    /** `roleCounts` over all loaded rows. */
    function RoleCounts(): (counts: Counts)
      reads this
      ensures Total(counts) == |rows|
      ensures forall role :: role != [] ==>
        Lookup(counts, role) == multiset(Roles(rows))[role] + (if role == "Unknown" then multiset(Roles(rows))[[]] else 0)
    {
      RoleCountsTotal(rows);
      RoleCountsAll(rows);
      Tally(RoleKeys(rows))
    }

    /** `primaryCommCounts` over all loaded rows. */
    function CommCounts(): (counts: Counts)
      reads this
      ensures Total(counts) == |rows| - multiset(CommValues(rows))[[]]
      ensures forall k :: k != [] ==> Lookup(counts, k) == multiset(CommValues(rows))[k]
    {
      PresentCountsTotal(CommValues(rows));
      PresentLookups(CommValues(rows));
      Tally(Present(CommValues(rows)))
    }

    /** `primaryMotivCounts` over all loaded rows. */
    function MotivCounts(): (counts: Counts)
      reads this
      ensures Total(counts) == |rows| - multiset(MotivValues(rows))[[]]
      ensures forall k :: k != [] ==> Lookup(counts, k) == multiset(MotivValues(rows))[k]
    {
      PresentCountsTotal(MotivValues(rows));
      PresentLookups(MotivValues(rows));
      Tally(Present(MotivValues(rows)))
    }

    /** The "Most common primary Comm" card. */
    function MostCommonComm(): (m: string)
      reads this
      ensures (forall v :: v in CommValues(rows) ==> v == []) ==> m == NO_VALUE
      ensures (exists v :: v in CommValues(rows) && v != []) ==>
        && m != [] && m in CommValues(rows)
        && forall k :: k != [] ==> multiset(CommValues(rows))[k] <= multiset(CommValues(rows))[m]
    {
      MostCommonPresent(CommValues(rows));
      MostCommon(CommCounts())
    }

    /** The "Most common primary Motiv" card. */
    function MostCommonMotiv(): (m: string)
      reads this
      ensures (forall v :: v in MotivValues(rows) ==> v == []) ==> m == NO_VALUE
      ensures (exists v :: v in MotivValues(rows) && v != []) ==>
        && m != [] && m in MotivValues(rows)
        && forall k :: k != [] ==> multiset(MotivValues(rows))[k] <= multiset(MotivValues(rows))[m]
    {
      MostCommonPresent(MotivValues(rows));
      MostCommon(MotivCounts())
    }
  }
}
