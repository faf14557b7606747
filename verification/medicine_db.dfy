/** The medicine table: name search (prefix matches, topped up by an
    external fuzzy matcher, duplicates removed, cut to a limit), exact-name
    lookup with the substitutes, side effects and uses read from numbered
    columns, the batch lookup and the habit-forming flag. */
module MedicineDb {
  import opened Wrappers
  import opened Text

  /** A cell: a column the table does not have, a missing value (NaN), or text. */
  datatype Cell = Absent | NaN | Text(s: string)

  /** One row of the table.  `id` is `None` when the column is absent or
      the value missing; `name` is `None` when the value is missing.  The
      numbered columns `substitute0`, `sideEffect0`, `use0`, ... are held in
      order; a position past the end is a column the table does not have. */
  datatype MedicineRow = MedicineRow(
    id: Option<int>,
    name: Option<string>,
    substitutes: seq<Cell>,
    sideEffects: seq<Cell>,
    uses: seq<Cell>,
    chemicalClass: Cell,
    habitForming: Cell,
    therapeuticClass: Cell,
    actionClass: Cell)

  /** The record `get_medicine_info` returns. */
  datatype MedicineInfo = MedicineInfo(
    id: int,
    name: string,
    substitutes: seq<string>,
    sideEffects: seq<string>,
    uses: seq<string>,
    chemicalClass: Cell,
    habitForming: Cell,
    therapeuticClass: Cell,
    actionClass: Cell)

  const SubstituteColumns: nat := 5
  const SideEffectColumns: nat := 42
  const UseColumns: nat := 5

  /** `difflib.get_close_matches(word, possibilities, n, cutoff=0.6)`. */
  type CloseMatcher = (string, seq<string>, int) -> seq<string>

  // ---------------------------------------------------------------------
  // Numbered columns

  function CellAt(cells: seq<Cell>, i: nat): Cell {
    if i < |cells| then cells[i] else Absent
  }

  /** A cell that is kept: present, not missing, not empty. */
  predicate Filled(c: Cell) {
    c.Text? && c.s != ""
  }

  /** The kept cells among the first `n` columns, in column order. */
  function Present(cells: seq<Cell>, n: nat): seq<string> {
    if n == 0 then []
    else
      var c := CellAt(cells, n - 1);
      Present(cells, n - 1) + (if Filled(c) then [c.s] else [])
  }

  /** At most one entry per column read; each entry is the non-empty text
      of one of those columns, and every such text is kept. */
  lemma {:induction false} PresentFacts(cells: seq<Cell>, n: nat)
    ensures |Present(cells, n)| <= n
    ensures forall x :: x in Present(cells, n) ==>
      x != "" && exists i :: 0 <= i < n && CellAt(cells, i) == Text(x)
    ensures forall i :: 0 <= i < n && Filled(CellAt(cells, i)) ==> CellAt(cells, i).s in Present(cells, n)
  {
    if n > 0 {
      PresentFacts(cells, n - 1);
      var c := CellAt(cells, n - 1);
      forall x | x in Present(cells, n) ensures x != "" && exists i :: 0 <= i < n && CellAt(cells, i) == Text(x) {
        if x !in Present(cells, n - 1) {
          assert CellAt(cells, n - 1) == Text(x);
        }
      }
    }
  }

  /** The columns among the first `n` whose cells are kept, in increasing order. */
  function FilledColumns(cells: seq<Cell>, n: nat): (cols: seq<nat>)
    ensures forall k :: 0 <= k < |cols| ==> cols[k] < n && Filled(CellAt(cells, cols[k]))
    ensures forall a, b :: 0 <= a < b < |cols| ==> cols[a] < cols[b]
    ensures forall i :: 0 <= i < n && Filled(CellAt(cells, i)) ==> i in cols
  {
    if n == 0 then []
    else FilledColumns(cells, n - 1) + (if Filled(CellAt(cells, n - 1)) then [n - 1] else [])
  }

  /** Entry by entry: the `k`-th kept text is the text of the `k`-th kept
      column, so the entries follow column order. */
  lemma {:induction false} PresentColumns(cells: seq<Cell>, n: nat)
    ensures |Present(cells, n)| == |FilledColumns(cells, n)|
    ensures forall k :: 0 <= k < |Present(cells, n)| ==>
      CellAt(cells, FilledColumns(cells, n)[k]) == Text(Present(cells, n)[k])
  {
    if n > 0 {
      PresentColumns(cells, n - 1);
    }
  }

  // ---------------------------------------------------------------------
  // Lookup by name

  /** `row.get(column, default)`: the default only for a column the table lacks. */
  function GetOr(c: Cell, default: string): Cell {
    if c.Absent? then Text(default) else c
  }

  predicate NameMatches(r: MedicineRow, q: string) {
    r.name.Some? && Lower(r.name.value) == q
  }

  /** The first row whose lowercased name is `q`. */
  function FirstNamed(rows: seq<MedicineRow>, q: string): (r: Option<nat>)
    ensures r.None? <==> forall k :: 0 <= k < |rows| ==> !NameMatches(rows[k], q)
    ensures r.Some? ==>
      r.value < |rows| && NameMatches(rows[r.value], q)
      && forall k :: 0 <= k < r.value ==> !NameMatches(rows[k], q)
  {
    if rows == [] then None
    else if NameMatches(rows[0], q) then Some(0)
    else match FirstNamed(rows[1..], q)
      case None =>
        assert forall k :: 1 <= k < |rows| ==> rows[k] == rows[1..][k - 1];
        None
      case Some(k) =>
        assert forall m :: 1 <= m <= k ==> rows[m] == rows[1..][m - 1];
        Some(k + 1)
  }

  function InfoOf(row: MedicineRow): MedicineInfo
    requires row.name.Some?
  {
    MedicineInfo(
      if row.id.Some? then row.id.value else 0,
      row.name.value,
      Present(row.substitutes, SubstituteColumns),
      Present(row.sideEffects, SideEffectColumns),
      Present(row.uses, UseColumns),
      GetOr(row.chemicalClass, "N/A"),
      GetOr(row.habitForming, "No"),
      GetOr(row.therapeuticClass, "N/A"),
      GetOr(row.actionClass, "N/A"))
  }

  /** The query as matched: lowercased and stripped. */
  function Normalize(query: string): string {
    PyStrip(Lower(query))
  }

  /** `get_medicine_info`: the first row whose lowercased name equals the
      normalised query, or nothing (always nothing for an empty table). */
  function Info(rows: seq<MedicineRow>, name: string): Option<MedicineInfo> {
    if rows == [] then None
    else match FirstNamed(rows, Normalize(name))
      case None => None
      case Some(k) => Some(InfoOf(rows[k]))
  }

  /** There is a record exactly when some row's lowercased name equals the
      normalised query; it is built from the first such row and names it. */
  lemma InfoFound(rows: seq<MedicineRow>, name: string)
    ensures Info(rows, name).Some? <==> exists k :: 0 <= k < |rows| && NameMatches(rows[k], Normalize(name))
    ensures Info(rows, name).Some? ==>
      exists k :: 0 <= k < |rows| && NameMatches(rows[k], Normalize(name))
        && (forall m :: 0 <= m < k ==> !NameMatches(rows[m], Normalize(name)))
        && Info(rows, name).value == InfoOf(rows[k])
        && Info(rows, name).value.name == rows[k].name.value
  {
    if rows != [] {
      var r := FirstNamed(rows, Normalize(name));
      if r.Some? {
        assert NameMatches(rows[r.value], Normalize(name));
      }
    }
  }

  /** A found record has at most 5 substitutes, 42 side effects and 5 uses,
      none of them empty. */
  lemma InfoBounds(rows: seq<MedicineRow>, name: string)
    ensures Info(rows, name).Some? ==>
      var info := Info(rows, name).value;
      |info.substitutes| <= 5 && |info.sideEffects| <= 42 && |info.uses| <= 5
      && (forall x :: x in info.substitutes ==> x != "")
      && (forall x :: x in info.sideEffects ==> x != "")
      && (forall x :: x in info.uses ==> x != "")
  {
    if Info(rows, name).Some? {
      var k := FirstNamed(rows, Normalize(name)).value;
      PresentFacts(rows[k].substitutes, SubstituteColumns);
      PresentFacts(rows[k].sideEffects, SideEffectColumns);
      PresentFacts(rows[k].uses, UseColumns);
    }
  }

  // ---------------------------------------------------------------------
  // Search by name

  /** `medicine_names`: the non-missing names, lowercased, in table order. */
  function NamesOf(rows: seq<MedicineRow>): seq<string> {
    if rows == [] then []
    else
      var r := rows[|rows| - 1];
      NamesOf(rows[..|rows| - 1]) + (if r.name.Some? then [Lower(r.name.value)] else [])
  }

  /** The names that start with `q`, in order. */
  function PrefixMatches(names: seq<string>, q: string): seq<string> {
    if names == [] then []
    else
      var n := names[|names| - 1];
      PrefixMatches(names[..|names| - 1], q) + (if StartsWith(n, q) then [n] else [])
  }

  /** `list(dict.fromkeys(xs))`: the first occurrence of each element, in order. */
  function Dedup(xs: seq<string>): seq<string> {
    if xs == [] then []
    else
      var init := Dedup(xs[..|xs| - 1]);
      if xs[|xs| - 1] in init then init else init + [xs[|xs| - 1]]
  }

  /** `xs[:limit]` with Python's reading of a negative bound. */
  function SliceTo(xs: seq<string>, limit: int): (r: seq<string>)
    ensures limit >= 0 ==> r == xs[..if limit < |xs| then limit else |xs|]
    ensures limit < 0 ==> r == xs[..if |xs| + limit > 0 then |xs| + limit else 0]
  {
    if limit >= 0 then (if limit < |xs| then xs[..limit] else xs)
    else if |xs| + limit > 0 then xs[..|xs| + limit] else []
  }

  /** `search_medicine` over the table `rows` and its name list `names`. */
  function Search(rows: seq<MedicineRow>, names: seq<string>, query: string, limit: int, closeMatches: CloseMatcher)
    : (r: seq<string>)
    ensures rows == [] ==> r == []
    ensures limit >= 0 ==> |r| <= limit
  {
    if rows == [] then []
    else
      var q := Normalize(query);
      var exact := PrefixMatches(names, q);
      var matches := if |exact| < limit then Dedup(exact + closeMatches(q, names, limit)) else exact;
      SliceTo(matches, limit)
  }

  /** Prefix matches are exactly the names that start with the query. */
  lemma {:induction false} PrefixMatchesFacts(names: seq<string>, q: string)
    ensures forall n :: n in PrefixMatches(names, q) <==> n in names && StartsWith(n, q)
    ensures |PrefixMatches(names, q)| <= |names|
  {
    if names != [] {
      var init := names[..|names| - 1];
      assert names == init + [names[|names| - 1]];
      PrefixMatchesFacts(init, q);
    }
  }

  /** Filtering works name by name: the prefix matches of a concatenation
      are those of the front part followed by those of the back part, so
      the matches keep table order. */
  lemma {:induction false} PrefixMatchesAppend(a: seq<string>, b: seq<string>, q: string)
    ensures PrefixMatches(a + b, q) == PrefixMatches(a, q) + PrefixMatches(b, q)
  {
    if b == [] {
      assert a + b == a;
    } else {
      var init := b[..|b| - 1];
      assert (a + b)[..|a + b| - 1] == a + init;
      PrefixMatchesAppend(a, init, q);
    }
  }

  /** The position of the first occurrence of `x` in `xs`. */
  function FirstIndex(xs: seq<string>, x: string): (i: nat)
    requires x in xs
    ensures i < |xs| && xs[i] == x
    ensures forall j :: 0 <= j < i ==> xs[j] != x
  {
    if xs[0] == x then 0 else 1 + FirstIndex(xs[1..], x)
  }

  /** Extending a list does not move the first occurrence of what it
      already held. */
  lemma FirstIndexExtend(xs: seq<string>, ys: seq<string>, x: string)
    requires x in xs
    ensures x in xs + ys && FirstIndex(xs + ys, x) == FirstIndex(xs, x)
  {
    assert (xs + ys)[FirstIndex(xs, x)] == x;
  }

  /** Deduplication keeps the elements in the order of their first
      occurrence. */
  lemma {:induction false} DedupOrder(xs: seq<string>)
    ensures forall x :: x in Dedup(xs) ==> x in xs
    ensures forall a, b :: 0 <= a < b < |Dedup(xs)| ==>
      FirstIndex(xs, Dedup(xs)[a]) < FirstIndex(xs, Dedup(xs)[b])
  {
    DedupFacts(xs);
    if xs != [] {
      var init, last := xs[..|xs| - 1], xs[|xs| - 1];
      assert xs == init + [last];
      DedupOrder(init);
      var d0, d := Dedup(init), Dedup(xs);
      forall a | 0 <= a < |d0| ensures FirstIndex(xs, d0[a]) == FirstIndex(init, d0[a]) < |init| {
        FirstIndexExtend(init, [last], d0[a]);
      }
      if last !in d0 {
        DedupFacts(init);
        assert last !in init;
        assert FirstIndex(xs, last) == |init|;
      }
    }
  }

  /** Deduplication keeps every element once and nothing else. */
  lemma {:induction false} DedupFacts(xs: seq<string>)
    ensures NoDuplicates(Dedup(xs))
    ensures forall x :: x in Dedup(xs) <==> x in xs
    ensures |Dedup(xs)| <= |xs|
  {
    if xs != [] {
      var init := xs[..|xs| - 1];
      assert xs == init + [xs[|xs| - 1]];
      DedupFacts(init);
    }
  }

  /** Deduplicating a longer list starts with the deduplicated front part:
      what comes first keeps its place. */
  lemma {:induction false} DedupPrefix(a: seq<string>, b: seq<string>)
    ensures |Dedup(a)| <= |Dedup(a + b)|
    ensures Dedup(a + b)[..|Dedup(a)|] == Dedup(a)
  {
    if b != [] {
      var b' := b[..|b| - 1];
      assert (a + b)[..|a + b| - 1] == a + b';
      DedupPrefix(a, b');
    } else {
      assert a + b == a;
    }
  }

  /** With at least `limit` prefix matches the result is the first `limit`
      of them, in table order, without consulting the fuzzy matcher. */
  lemma SearchEnoughPrefixMatches(rows: seq<MedicineRow>, names: seq<string>, query: string, limit: int,
                                  closeMatches: CloseMatcher)
    requires rows != [] && limit >= 0
    requires |PrefixMatches(names, Normalize(query))| >= limit
    ensures Search(rows, names, query, limit, closeMatches) == PrefixMatches(names, Normalize(query))[..limit]
    ensures forall n :: n in Search(rows, names, query, limit, closeMatches) ==>
      n in names && StartsWith(n, Normalize(query))
  {
    PrefixMatchesFacts(names, Normalize(query));
    var exact := PrefixMatches(names, Normalize(query));
    forall n | n in exact[..limit] ensures n in exact {
      var i :| 0 <= i < limit && exact[..limit][i] == n;
      assert exact[i] == n;
    }
  }

  /** With fewer than `limit` prefix matches, the prefix matches (each once)
      come first in table order, then fuzzy matches; no result repeats,
      each is a prefix match or a fuzzy match, the results keep the order
      in which they first appear among the prefix matches followed by the
      fuzzy matches, and a match is left out only when the results already
      fill the limit and every result comes before it in that order: the
      results are the first `limit` of the distinct matches. */
  lemma SearchTopsUpWithFuzzy(rows: seq<MedicineRow>, names: seq<string>, query: string, limit: int,
                              closeMatches: CloseMatcher)
    requires rows != []
    requires |PrefixMatches(names, Normalize(query))| < limit
    ensures var r := Search(rows, names, query, limit, closeMatches);
      var exact := PrefixMatches(names, Normalize(query));
      var fuzzy := closeMatches(Normalize(query), names, limit);
      && NoDuplicates(r)
      && |Dedup(exact)| <= |r| && r[..|Dedup(exact)|] == Dedup(exact)
      && (forall n :: n in r ==> n in exact || n in fuzzy)
      && (forall n :: n in exact + fuzzy && n !in r ==> |r| == limit)
      && (forall a, b :: 0 <= a < b < |r| ==> FirstIndex(exact + fuzzy, r[a]) < FirstIndex(exact + fuzzy, r[b]))
      && (forall k, n :: 0 <= k < |r| && n in exact + fuzzy && n !in r ==>
            FirstIndex(exact + fuzzy, r[k]) < FirstIndex(exact + fuzzy, n))
  {
    var q := Normalize(query);
    var exact := PrefixMatches(names, q);
    var fuzzy := closeMatches(q, names, limit);
    var all := Dedup(exact + fuzzy);
    var r := Search(rows, names, query, limit, closeMatches);
    var k := if limit < |all| then limit else |all|;
    assert r == all[..k];
    TopUpFacts(exact, fuzzy, limit);
  }

  /** The first `limit` distinct names of `exact + fuzzy`, when `exact` is
      shorter than `limit`: all of `exact` (each once) first, no repeats,
      only names of `exact + fuzzy`, in order of first appearance, and
      everything kept before everything left out. */
  lemma TopUpFacts(exact: seq<string>, fuzzy: seq<string>, limit: int)
    requires |exact| < limit
    ensures var all := Dedup(exact + fuzzy);
      var r := all[..if limit < |all| then limit else |all|];
      && NoDuplicates(r)
      && |Dedup(exact)| <= |r| && r[..|Dedup(exact)|] == Dedup(exact)
      && (forall n :: n in r ==> n in exact || n in fuzzy)
      && (forall n :: n in exact + fuzzy && n !in r ==> |r| == limit)
      && (forall a, b :: 0 <= a < b < |r| ==> FirstIndex(exact + fuzzy, r[a]) < FirstIndex(exact + fuzzy, r[b]))
      && (forall k, n :: 0 <= k < |r| && n in exact + fuzzy && n !in r ==>
            FirstIndex(exact + fuzzy, r[k]) < FirstIndex(exact + fuzzy, n))
  {
    var all := Dedup(exact + fuzzy);
    var d := Dedup(exact);
    var k := if limit < |all| then limit else |all|;
    assert |d| <= |exact| by { DedupFacts(exact); }
    assert |d| <= |all| && all[..|d|] == d by { DedupPrefix(exact, fuzzy); }
    assert NoDuplicates(all) && forall x :: x in all <==> x in exact + fuzzy by {
      DedupFacts(exact + fuzzy);
    }
    TakeFacts(all, d, k, exact, fuzzy);
    DedupOrder(exact + fuzzy);
    TakeOrder(all, exact + fuzzy, limit);
  }

  /** Cutting a list held in order of first occurrence in `src` at
      `limit`: the part kept is still in that order, an element left out
      means the part kept is `limit` long, and everything kept comes
      before everything left out. */
  lemma TakeOrder(xs: seq<string>, src: seq<string>, limit: int)
    requires 0 <= limit
    requires forall x :: x in xs <==> x in src
    requires forall a, b :: 0 <= a < b < |xs| ==> FirstIndex(src, xs[a]) < FirstIndex(src, xs[b])
    ensures var r := xs[..if limit < |xs| then limit else |xs|];
      && (forall a, b :: 0 <= a < b < |r| ==> FirstIndex(src, r[a]) < FirstIndex(src, r[b]))
      && (forall n :: n in src && n !in r ==> |r| == limit)
      && (forall k, n :: 0 <= k < |r| && n in src && n !in r ==> FirstIndex(src, r[k]) < FirstIndex(src, n))
  {
    var r := xs[..if limit < |xs| then limit else |xs|];
    forall a, b | 0 <= a < b < |r| ensures FirstIndex(src, r[a]) < FirstIndex(src, r[b]) {
      assert r[a] == xs[a] && r[b] == xs[b];
    }
    if limit >= |xs| {
      assert r == xs;
    }
    forall k, n | 0 <= k < |r| && n in src && n !in r ensures FirstIndex(src, r[k]) < FirstIndex(src, n) {
      forall i | 0 <= i < |r| ensures xs[i] != n {
        assert r[i] == xs[i] && r[i] in r;
      }
      var j :| 0 <= j < |xs| && xs[j] == n;
      assert r[k] == xs[k];
    }
  }

  /** Cutting a list without repeats that starts with `d`, at or after the
      end of `d`: no repeats, still starts with `d`, and holds only what the
      list held. */
  lemma TakeFacts(xs: seq<string>, d: seq<string>, k: nat, front: seq<string>, back: seq<string>)
    requires |d| <= k <= |xs| && xs[..|d|] == d
    requires NoDuplicates(xs) && forall x :: x in xs ==> x in front || x in back
    ensures NoDuplicates(xs[..k])
    ensures |d| <= |xs[..k]| && xs[..k][..|d|] == d
    ensures forall x :: x in xs[..k] ==> x in front || x in back
  {
    forall a, b | 0 <= a < b < k ensures xs[..k][a] != xs[..k][b] {
      assert xs[..k][a] == xs[a] && xs[..k][b] == xs[b];
    }
    assert xs[..k][..|d|] == xs[..|d|];
  }

  // ---------------------------------------------------------------------
  // Batch lookup

  /** The records of the listed names, later entries overwriting earlier ones. */
  function Batch(rows: seq<MedicineRow>, medicines: seq<string>): map<string, MedicineInfo> {
    if medicines == [] then map[]
    else
      var m := medicines[|medicines| - 1];
      var before := Batch(rows, medicines[..|medicines| - 1]);
      match Info(rows, m)
      case None => before
      case Some(info) => before[m := info]
  }

  lemma BatchStep(rows: seq<MedicineRow>, medicines: seq<string>, k: nat)
    requires k < |medicines|
    ensures Info(rows, medicines[k]).None? ==> Batch(rows, medicines[..k + 1]) == Batch(rows, medicines[..k])
    ensures Info(rows, medicines[k]).Some? ==>
      Batch(rows, medicines[..k + 1]) == Batch(rows, medicines[..k])[medicines[k] := Info(rows, medicines[k]).value]
  {
    assert medicines[..k + 1][..k] == medicines[..k];
  }

  /** A record for every listed name that has one, and for nothing else. */
  lemma {:induction false} BatchFacts(rows: seq<MedicineRow>, medicines: seq<string>)
    ensures forall m :: m in Batch(rows, medicines) <==> m in medicines && Info(rows, m).Some?
    ensures forall m :: m in Batch(rows, medicines) ==> Batch(rows, medicines)[m] == Info(rows, m).value
  {
    if medicines != [] {
      var init := medicines[..|medicines| - 1];
      assert medicines == init + [medicines[|medicines| - 1]];
      BatchFacts(rows, init);
    }
  }

  // ---------------------------------------------------------------------
  // The database

  datatype HabitError = NotText

  class MedicineDatabase {
    var rows: seq<MedicineRow>
    /** The names offered to search: non-missing, lowercased, in table order. */
    var medicineNames: seq<string>

    constructor Load(table: seq<MedicineRow>)
      ensures rows == table && medicineNames == NamesOf(table)
    {
      rows := table;
      medicineNames := NamesOf(table);
    }

    /** A missing or unreadable file gives an empty table. */
    constructor Missing()
      ensures rows == [] && medicineNames == []
    {
      rows := [];
      medicineNames := [];
    }

    /** `search_medicine` on the loaded table: nothing from an empty table,
        and never more than a non-negative limit. */
    function SearchMedicine(query: string, limit: int, closeMatches: CloseMatcher): (r: seq<string>)
      reads this
      ensures rows == [] ==> r == []
      ensures limit >= 0 ==> |r| <= limit
    {
      Search(rows, medicineNames, query, limit, closeMatches)
    }

    /** One of the extraction loops: the kept cells of columns `0 .. count - 1`. */
    method ExtractFilled(cells: seq<Cell>, count: nat) returns (out: seq<string>)
      ensures out == Present(cells, count)
    {
      out := [];
      var i := 0;
      while i < count
        invariant 0 <= i <= count
        invariant out == Present(cells, i)
      {
        var c := if i < |cells| then cells[i] else Absent;
        if c.Text? && c.s != "" {
          out := out + [c.s];
        }
        i := i + 1;
      }
    }

    /** `get_medicine_info`. */
    method GetMedicineInfo(medicineName: string) returns (info: Option<MedicineInfo>)
      ensures info == Info(rows, medicineName)
    {
      if |rows| == 0 {
        return None;
      }
      var q := Normalize(medicineName);
      var found := FirstNamed(rows, q);
      if found.None? {
        return None;
      }
      var row := rows[found.value];
      var substitutes := ExtractFilled(row.substitutes, SubstituteColumns);
      var sideEffects := ExtractFilled(row.sideEffects, SideEffectColumns);
      var uses := ExtractFilled(row.uses, UseColumns);
      info := Some(MedicineInfo(
        if row.id.Some? then row.id.value else 0,
        row.name.value,
        substitutes, sideEffects, uses,
        GetOr(row.chemicalClass, "N/A"),
        GetOr(row.habitForming, "No"),
        GetOr(row.therapeuticClass, "N/A"),
        GetOr(row.actionClass, "N/A")));
    }

    /** `get_medicine_side_effects`: the side effects of the record, or none. */
    method GetMedicineSideEffects(medicineName: string) returns (effects: seq<string>)
      ensures Info(rows, medicineName).None? ==> effects == []
      ensures Info(rows, medicineName).Some? ==> effects == Info(rows, medicineName).value.sideEffects
      ensures |effects| <= 42
    {
      var info := GetMedicineInfo(medicineName);
      InfoBounds(rows, medicineName);
      effects := if info.Some? then info.value.sideEffects else [];
    }

    /** `get_medicine_substitutes`: the substitutes of the record, or none. */
    method GetMedicineSubstitutes(medicineName: string) returns (subs: seq<string>)
      ensures Info(rows, medicineName).None? ==> subs == []
      ensures Info(rows, medicineName).Some? ==> subs == Info(rows, medicineName).value.substitutes
      ensures |subs| <= 5
    {
      var info := GetMedicineInfo(medicineName);
      InfoBounds(rows, medicineName);
      subs := if info.Some? then info.value.substitutes else [];
    }

    /** `batch_search`. */
    method BatchSearch(medicines: seq<string>) returns (results: map<string, MedicineInfo>)
      ensures results == Batch(rows, medicines)
    {
      results := map[];
      var k := 0;
      while k < |medicines|
        invariant 0 <= k <= |medicines|
        invariant results == Batch(rows, medicines[..k])
      {
        var info := GetMedicineInfo(medicines[k]);
        BatchStep(rows, medicines, k);
        if info.Some? {
          results := results[medicines[k] := info.value];
        }
        k := k + 1;
      }
      assert medicines[..k] == medicines;
    }

    /** `check_habit_forming`: false without a record; otherwise whether the
        lowercased flag is "yes", "true" or "1"; a missing flag value is not
        text and has no `lower`, which is an error. */
    method CheckHabitForming(medicineName: string) returns (r: Result<bool, HabitError>)
      ensures Info(rows, medicineName).None? ==> r == Ok(false)
      ensures Info(rows, medicineName).Some? ==>
        var flag := Info(rows, medicineName).value.habitForming;
        (flag.Text? ==> r == Ok(Lower(flag.s) in ["yes", "true", "1"]))
        && (!flag.Text? ==> r == Err(NotText))
    {
      var info := GetMedicineInfo(medicineName);
      if info.None? {
        return Ok(false);
      }
      var flag := info.value.habitForming;
      if flag.Text? {
        var f := Lower(flag.s);
        r := Ok(f == "yes" || f == "true" || f == "1");
      } else {
        r := Err(NotText);
      }
    }
  }
}
