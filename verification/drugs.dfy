/** The drug-drug interaction checker: a table of (drug 1, drug 2,
    description) rows with normalised names, a keyword classifier for the
    severity of a description, the all-pairs lookup over a medication list,
    the per-drug search and the per-severity summary. */
module DrugInteractions {
  import opened Wrappers
  import opened Text

  datatype Row = Row(drug1: string, drug2: string, description: string)

  /** A severity level. */
  datatype Level = High | Medium | Low

  function LevelName(s: Level): string {
    match s
    case High => "high"
    case Medium => "medium"
    case Low => "low"
  }

  /** One reported interaction; the drug names are the caller's own
      strings.  Its severity is the classification of its description. */
  datatype Interaction = Interaction(drug1: string, drug2: string, description: string) {
    function Severity(): Level { ClassifySeverity(description) }
  }

  /** One `search_drug` result: the drug on the other side of a row, with
      the severity of the row's description. */
  datatype SearchHit = SearchHit(interactingDrug: string, description: string) {
    function Severity(): Level { ClassifySeverity(description) }
  }

  datatype Summary = Summary(total: nat, high: nat, medium: nat, low: nat, interactions: seq<Interaction>)

  // ---------------------------------------------------------------------
  // Severity

  const HighKeywords: seq<string> := [
    "severe", "toxic", "fatal", "dangerous", "contraindicated",
    "life-threatening", "cardiotoxic", "hepatotoxic", "nephrotoxic"]

  const MediumKeywords: seq<string> := [
    "increased", "decreased", "may increase", "may decrease",
    "adverse effects", "side effects", "risk"]

  /** Some keyword of `keywords` occurs in `text`. */
  predicate MentionsAny(text: string, keywords: seq<string>) {
    exists k :: 0 <= k < |keywords| && Contains(text, keywords[k])
  }

  /** Python's `any(keyword in text for keyword in keywords)`. */
  function AnyKeyword(text: string, keywords: seq<string>): (b: bool)
    ensures b <==> MentionsAny(text, keywords)
  {
    if keywords == [] then false
    else if Contains(text, keywords[0]) then true
    else
      var b := AnyKeyword(text, keywords[1..]);
      assert forall k :: 1 <= k < |keywords| ==> keywords[k] == keywords[1..][k - 1];
      assert b ==> exists k :: 0 <= k < |keywords[1..]| && Contains(text, keywords[1..][k]);
      b
  }

  /** Severity by keyword, case-insensitively: a high keyword wins over any
      medium keyword, and a description with neither is low. */
  function ClassifySeverity(description: string): (s: Level)
    ensures s == High <==> MentionsAny(Lower(description), HighKeywords)
    ensures s == Medium <==>
      !MentionsAny(Lower(description), HighKeywords) && MentionsAny(Lower(description), MediumKeywords)
    ensures s == Low <==>
      !MentionsAny(Lower(description), HighKeywords) && !MentionsAny(Lower(description), MediumKeywords)
  {
    var text := Lower(description);
    if AnyKeyword(text, HighKeywords) then High
    else if AnyKeyword(text, MediumKeywords) then Medium
    else Low
  }

  /** The classification does not depend on the case of the description. */
  lemma SeverityIgnoresCase(description: string)
    ensures ClassifySeverity(Lower(description)) == ClassifySeverity(description)
  {
    LowerIsLowerCase(description);
  }

  // ---------------------------------------------------------------------
  // The table

  /** Names are matched lowercased and stripped, on both sides. */
  function Normalize(name: string): string {
    PyStrip(Lower(name))
  }

  function NormalizeRow(r: Row): Row {
    Row(Normalize(r.drug1), Normalize(r.drug2), r.description)
  }

  predicate Links(r: Row, a: string, b: string) {
    r.drug1 == a && r.drug2 == b
  }

  predicate HasRow(rows: seq<Row>, a: string, b: string) {
    exists k :: 0 <= k < |rows| && Links(rows[k], a, b)
  }

  /** Row `k` is the first row linking `a` to `b`: what `iloc[0]` picks. */
  predicate IsFirstRow(rows: seq<Row>, a: string, b: string, k: int) {
    0 <= k < |rows| && Links(rows[k], a, b)
    && forall m :: 0 <= m < k ==> !Links(rows[m], a, b)
  }

  function FirstRow(rows: seq<Row>, a: string, b: string): (r: Option<nat>)
    ensures r.Some? ==> r.value < |rows|
  {
    if rows == [] then None
    else if Links(rows[0], a, b) then Some(0)
    else match FirstRow(rows[1..], a, b)
      case None => None
      case Some(k) => Some(k + 1)
  }

  /** The search finds nothing exactly when no row links `a` to `b`, and
      otherwise finds the first such row. */
  lemma {:induction false} FirstRowFacts(rows: seq<Row>, a: string, b: string)
    ensures FirstRow(rows, a, b).None? <==> !HasRow(rows, a, b)
    ensures FirstRow(rows, a, b).Some? ==> IsFirstRow(rows, a, b, FirstRow(rows, a, b).value)
  {
    if rows != [] && !Links(rows[0], a, b) {
      FirstRowFacts(rows[1..], a, b);
      match FirstRow(rows[1..], a, b)
      case None =>
        assert forall k :: 1 <= k < |rows| ==> rows[k] == rows[1..][k - 1];
      case Some(k) =>
        assert forall m :: 1 <= m <= k ==> rows[m] == rows[1..][m - 1];
    }
  }

  /** The record for one pair of normalised names `a`, `b`, reported under
      the original names `drug1`, `drug2`. */
  function Lookup(rows: seq<Row>, a: string, b: string, drug1: string, drug2: string): Option<Interaction> {
    match FirstRow(rows, a, b)
    case Some(k) => Some(Interaction(drug1, drug2, rows[k].description))
    case None =>
      match FirstRow(rows, b, a)
      case Some(k) => Some(Interaction(drug1, drug2, rows[k].description))
      case None => None
  }

  /** A pair has a record exactly when a row links it in either direction;
      the record carries the caller's names and the description of the
      first row in the given direction if there is one, and else that of
      the first row in the reverse direction. */
  lemma LookupFacts(rows: seq<Row>, a: string, b: string, drug1: string, drug2: string)
    ensures var r := Lookup(rows, a, b, drug1, drug2);
      (r.Some? <==> HasRow(rows, a, b) || HasRow(rows, b, a))
      && (r.Some? ==> r.value.drug1 == drug1 && r.value.drug2 == drug2)
      && (HasRow(rows, a, b) ==>
          r.Some? && exists k :: IsFirstRow(rows, a, b, k) && r.value.description == rows[k].description)
      && (!HasRow(rows, a, b) && HasRow(rows, b, a) ==>
          r.Some? && exists k :: IsFirstRow(rows, b, a, k) && r.value.description == rows[k].description)
  {
    FirstRowFacts(rows, a, b);
    FirstRowFacts(rows, b, a);
  }

  /** The list as matched: every name lowercased and stripped. */
  function NormalizeAll(meds: seq<string>): (r: seq<string>)
    ensures |r| == |meds|
    ensures forall k :: 0 <= k < |r| ==> r[k] == Normalize(meds[k])
  {
    seq(|meds|, k requires 0 <= k < |meds| => Normalize(meds[k]))
  }

  /** The record for the pair at positions `p.0`, `p.1` of a medication
      list, matched by the names `norm` (none for a position outside the
      list, which the loop never visits). */
  function PairRecord(rows: seq<Row>, meds: seq<string>, norm: seq<string>, p: (nat, nat)): Option<Interaction> {
    if p.0 < |meds| && p.1 < |meds| && |norm| == |meds| then
      Lookup(rows, norm[p.0], norm[p.1], meds[p.0], meds[p.1])
    else None
  }

  // ---------------------------------------------------------------------
  // The pairs, in the order the nested loop visits them

  /** `(i, j)` for `i < j < m`, by increasing `j`. */
  function RowPairs(i: nat, m: nat): seq<(nat, nat)> {
    if m <= i + 1 then [] else RowPairs(i, m - 1) + [(i, m - 1)]
  }

  /** Every pair `(r, j)` with `r < i` and `r < j < n`, row by row. */
  function PairsBefore(i: nat, n: nat): seq<(nat, nat)> {
    if i == 0 then [] else PairsBefore(i - 1, n) + RowPairs(i - 1, n)
  }

  function AllPairs(n: nat): seq<(nat, nat)> {
    PairsBefore(n, n)
  }

  predicate LexLess(p: (nat, nat), q: (nat, nat)) {
    p.0 < q.0 || (p.0 == q.0 && p.1 < q.1)
  }

  predicate LexSorted(ps: seq<(nat, nat)>) {
    forall a, b :: 0 <= a < b < |ps| ==> LexLess(ps[a], ps[b])
  }

  lemma {:induction false} RowPairsFacts(i: nat, m: nat)
    ensures |RowPairs(i, m)| == if m > i then m - i - 1 else 0
    ensures forall p :: p in RowPairs(i, m) <==> p.0 == i && i < p.1 < m
    ensures forall a, b :: 0 <= a < b < |RowPairs(i, m)| ==> RowPairs(i, m)[a].1 < RowPairs(i, m)[b].1
  {
    if m > i + 1 {
      RowPairsFacts(i, m - 1);
    }
  }

  lemma StepArithmetic(i: nat, n: nat)
    requires 0 < i <= n
    ensures (i - 1) * (2 * n - i) + 2 * (n - i) == i * (2 * n - i - 1)
  {
    calc {
      i * (2 * n - i - 1);
      (i - 1) * (2 * n - i - 1) + (2 * n - i - 1);
      (i - 1) * (2 * n - i) - (i - 1) + (2 * n - i - 1);
    }
  }

  /** The loop visits `i * (2n - i - 1) / 2` pairs before row `i`. */
  lemma {:induction false} PairsBeforeLength(i: nat, n: nat)
    requires i <= n
    ensures 2 * |PairsBefore(i, n)| == i * (2 * n - i - 1)
  {
    if i > 0 {
      PairsBeforeLength(i - 1, n);
      RowPairsFacts(i - 1, n);
      StepArithmetic(i, n);
    }
  }

  /** The pairs before row `i` are exactly the pairs `r < j < n` with `r < i`. */
  lemma {:induction false} PairsBeforeMembers(i: nat, n: nat)
    ensures forall p :: p in PairsBefore(i, n) ==> p.0 < i && p.0 < p.1 < n
    ensures forall r: nat, j: nat :: r < i && r < j < n ==> (r, j) in PairsBefore(i, n)
  {
    if i > 0 {
      var front, back := PairsBefore(i - 1, n), RowPairs(i - 1, n);
      assert PairsBefore(i, n) == front + back;
      PairsBeforeMembers(i - 1, n);
      RowPairsFacts(i - 1, n);
      forall p: (nat, nat) | p in front + back ensures p.0 < i && p.0 < p.1 < n {
        if p !in front {
          assert p in back;
        }
      }
      forall r: nat, j: nat | r < i && r < j < n ensures (r, j) in front + back {
        if r < i - 1 {
          assert (r, j) in front;
        } else {
          assert (r, j) in back;
        }
      }
    }
  }

  /** Two sorted runs, every pair of the first before every pair of the
      second, make a sorted run. */
  lemma ConcatSorted(xs: seq<(nat, nat)>, ys: seq<(nat, nat)>)
    requires LexSorted(xs) && LexSorted(ys)
    requires forall p, q :: p in xs && q in ys ==> LexLess(p, q)
    ensures LexSorted(xs + ys)
  {
    var zs := xs + ys;
    forall a, b | 0 <= a < b < |zs|
      ensures LexLess(zs[a], zs[b])
    {
      if b < |xs| {
        assert zs[a] == xs[a] && zs[b] == xs[b];
      } else if a >= |xs| {
        assert zs[a] == ys[a - |xs|] && zs[b] == ys[b - |xs|];
      } else {
        assert zs[a] == xs[a] && zs[b] == ys[b - |xs|];
      }
    }
  }

  /** The loop visits the pairs in lexicographic order. */
  lemma {:induction false} PairsBeforeSorted(i: nat, n: nat)
    ensures LexSorted(PairsBefore(i, n))
  {
    if i > 0 {
      var front, back := PairsBefore(i - 1, n), RowPairs(i - 1, n);
      assert LexSorted(front) by { PairsBeforeSorted(i - 1, n); }
      assert LexSorted(back) && forall q :: q in back ==> q.0 == i - 1 by {
        RowPairsFacts(i - 1, n);
      }
      assert forall p :: p in front ==> p.0 < i - 1 by { PairsBeforeMembers(i - 1, n); }
      ConcatSorted(front, back);
    }
  }

  /** Every pair `i < j < n` once, in lexicographic order: `n(n-1)/2` pairs. */
  lemma AllPairsFacts(n: nat)
    ensures 2 * |AllPairs(n)| == n * (n - 1)
    ensures forall p :: p in AllPairs(n) <==> p.0 < p.1 < n
    ensures LexSorted(AllPairs(n))
  {
    PairsBeforeLength(n, n);
    PairsBeforeMembers(n, n);
    PairsBeforeSorted(n, n);
  }

  // ---------------------------------------------------------------------
  // The result of the all-pairs check

  /** The records found for `ps`, in the order of `ps`. */
  function Collect(rows: seq<Row>, meds: seq<string>, norm: seq<string>, ps: seq<(nat, nat)>): seq<Interaction> {
    if ps == [] then []
    else
      var last := PairRecord(rows, meds, norm, ps[|ps| - 1]);
      Collect(rows, meds, norm, ps[..|ps| - 1]) + (if last.Some? then [last.value] else [])
  }

  /** The pairs of `ps` that have a record, in the order of `ps`. */
  function Hits(rows: seq<Row>, meds: seq<string>, norm: seq<string>, ps: seq<(nat, nat)>): seq<(nat, nat)> {
    if ps == [] then []
    else
      var last := ps[|ps| - 1];
      Hits(rows, meds, norm, ps[..|ps| - 1]) + (if PairRecord(rows, meds, norm, last).Some? then [last] else [])
  }

  /** `check_interactions`: the all-pairs result. */
  function Interactions(rows: seq<Row>, meds: seq<string>): (r: seq<Interaction>)
    ensures rows == [] ==> r == []
  {
    CollectNoRows(meds, NormalizeAll(meds), AllPairs(|meds|));
    Collect(rows, meds, NormalizeAll(meds), AllPairs(|meds|))
  }

  /** Each record belongs, in order, to the next pair that has one. */
  lemma {:induction false} CollectHits(rows: seq<Row>, meds: seq<string>, norm: seq<string>, ps: seq<(nat, nat)>)
    ensures |Hits(rows, meds, norm, ps)| == |Collect(rows, meds, norm, ps)| <= |ps|
    ensures forall k :: 0 <= k < |Hits(rows, meds, norm, ps)| ==>
      PairRecord(rows, meds, norm, Hits(rows, meds, norm, ps)[k]) == Some(Collect(rows, meds, norm, ps)[k])
  {
    if ps != [] {
      CollectHits(rows, meds, norm, ps[..|ps| - 1]);
    }
  }

  /** The pairs with a record are exactly those of `ps` that have one. */
  lemma {:induction false} HitsMembers(rows: seq<Row>, meds: seq<string>, norm: seq<string>, ps: seq<(nat, nat)>)
    ensures forall p :: p in Hits(rows, meds, norm, ps) <==> p in ps && PairRecord(rows, meds, norm, p).Some?
  {
    if ps != [] {
      var init := ps[..|ps| - 1];
      assert ps == init + [ps[|ps| - 1]];
      HitsMembers(rows, meds, norm, init);
    }
  }

  /** Keeping some pairs of a sorted list keeps it sorted. */
  lemma {:induction false} HitsSorted(rows: seq<Row>, meds: seq<string>, norm: seq<string>, ps: seq<(nat, nat)>)
    requires LexSorted(ps)
    ensures LexSorted(Hits(rows, meds, norm, ps))
  {
    if ps != [] {
      var init, last := ps[..|ps| - 1], ps[|ps| - 1];
      HitsSorted(rows, meds, norm, init);
      HitsMembers(rows, meds, norm, init);
      var hs := Hits(rows, meds, norm, init);
      forall a, b | 0 <= a < b < |hs + [last]| ensures LexLess((hs + [last])[a], (hs + [last])[b]) {
        if b == |hs| {
          assert hs[a] in hs;
          var c :| 0 <= c < |init| && init[c] == hs[a];
          assert ps[c] == hs[a];
        }
      }
    }
  }

  lemma CollectExtend(rows: seq<Row>, meds: seq<string>, norm: seq<string>, ps: seq<(nat, nat)>, p: (nat, nat))
    ensures Collect(rows, meds, norm, ps + [p])
      == Collect(rows, meds, norm, ps) + (if PairRecord(rows, meds, norm, p).Some? then [PairRecord(rows, meds, norm, p).value] else [])
  {
    assert (ps + [p])[..|ps|] == ps;
  }

  /** The records of the pairs `(i, k)` for `i < k < j`, in order of `k`:
      what the inner loop has found once it reaches `j`. */
  function RowRecords(rows: seq<Row>, meds: seq<string>, norm: seq<string>, i: nat, j: nat): seq<Interaction>
    requires j <= |meds| == |norm|
  {
    if j <= i + 1 then []
    else
      var rec := Lookup(rows, norm[i], norm[j - 1], meds[i], meds[j - 1]);
      RowRecords(rows, meds, norm, i, j - 1) + (if rec.Some? then [rec.value] else [])
  }

  /** The inner loop's records are those of the row's pairs. */
  lemma {:induction false} RowRecordsCollect(rows: seq<Row>, meds: seq<string>, norm: seq<string>, i: nat, j: nat)
    requires j <= |meds| == |norm|
    ensures RowRecords(rows, meds, norm, i, j) == Collect(rows, meds, norm, RowPairs(i, j))
  {
    if j > i + 1 {
      RowRecordsCollect(rows, meds, norm, i, j - 1);
      CollectExtend(rows, meds, norm, RowPairs(i, j - 1), (i, j - 1));
    }
  }

  /** Collecting over two runs of pairs is collecting over each in turn. */
  lemma {:induction false} CollectAppend(rows: seq<Row>, meds: seq<string>, norm: seq<string>,
                                         ps: seq<(nat, nat)>, qs: seq<(nat, nat)>)
    ensures Collect(rows, meds, norm, ps + qs) == Collect(rows, meds, norm, ps) + Collect(rows, meds, norm, qs)
  {
    if qs == [] {
      assert ps + qs == ps;
    } else {
      var init, last := qs[..|qs| - 1], qs[|qs| - 1];
      assert ps + qs == (ps + init) + [last];
      assert qs == init + [last];
      CollectAppend(rows, meds, norm, ps, init);
      CollectExtend(rows, meds, norm, ps + init, last);
      CollectExtend(rows, meds, norm, init, last);
    }
  }

  /** The pairs before row `i + 1` are those before row `i`, then row `i`'s. */
  lemma CollectNextRow(rows: seq<Row>, meds: seq<string>, norm: seq<string>, i: nat, n: nat)
    ensures Collect(rows, meds, norm, PairsBefore(i + 1, n))
      == Collect(rows, meds, norm, PairsBefore(i, n)) + Collect(rows, meds, norm, RowPairs(i, n))
  {
    CollectAppend(rows, meds, norm, PairsBefore(i, n), RowPairs(i, n));
  }

  /** An empty table finds nothing. */
  lemma {:induction false} CollectNoRows(meds: seq<string>, norm: seq<string>, ps: seq<(nat, nat)>)
    ensures Collect([], meds, norm, ps) == []
  {
    if ps != [] {
      CollectNoRows(meds, norm, ps[..|ps| - 1]);
    }
  }

  /** At most one record per pair `i < j`: at most `n(n-1)/2` records. */
  lemma InteractionsBound(rows: seq<Row>, meds: seq<string>)
    ensures 2 * |Interactions(rows, meds)| <= |meds| * (|meds| - 1)
  {
    AllPairsFacts(|meds|);
    CollectHits(rows, meds, NormalizeAll(meds), AllPairs(|meds|));
  }

  /** The records come from pairs `i < j`, one each, in `(i, j)` order. */
  lemma InteractionsInPairOrder(rows: seq<Row>, meds: seq<string>)
    ensures var hs := Hits(rows, meds, NormalizeAll(meds), AllPairs(|meds|));
      LexSorted(hs) && |hs| == |Interactions(rows, meds)|
      && (forall k :: 0 <= k < |hs| ==> hs[k].0 < hs[k].1 < |meds|)
      && (forall k :: 0 <= k < |hs| ==>
            PairRecord(rows, meds, NormalizeAll(meds), hs[k]) == Some(Interactions(rows, meds)[k]))
  {
    var n, norm := |meds|, NormalizeAll(meds);
    AllPairsFacts(n);
    CollectHits(rows, meds, norm, AllPairs(n));
    HitsMembers(rows, meds, norm, AllPairs(n));
    HitsSorted(rows, meds, norm, AllPairs(n));
    var hs := Hits(rows, meds, norm, AllPairs(n));
    forall k | 0 <= k < |hs| ensures hs[k].0 < hs[k].1 < n {
      assert hs[k] in hs;
    }
  }

  /** Every pair `i < j` with a matching row is reported. */
  lemma InteractionsComplete(rows: seq<Row>, meds: seq<string>)
    ensures forall i: nat, j: nat :: i < j < |meds| && PairRecord(rows, meds, NormalizeAll(meds), (i, j)).Some? ==>
      (i, j) in Hits(rows, meds, NormalizeAll(meds), AllPairs(|meds|))
  {
    var norm, all := NormalizeAll(meds), AllPairs(|meds|);
    PairsBeforeMembers(|meds|, |meds|);
    HitsMembers(rows, meds, norm, all);
    forall i: nat, j: nat | i < j < |meds| && PairRecord(rows, meds, norm, (i, j)).Some?
      ensures (i, j) in Hits(rows, meds, norm, all)
    {
      assert (i, j) in all;
    }
  }

  // ---------------------------------------------------------------------
  // Search for one drug

  function HitOf(r: Row, q: string): seq<SearchHit> {
    if r.drug1 == q || r.drug2 == q then
      [SearchHit(if r.drug1 == q then r.drug2 else r.drug1, r.description)]
    else []
  }

  predicate Involves(r: Row, q: string) {
    r.drug1 == q || r.drug2 == q
  }

  /** `h` is the hit of row `k`, which names `q` on one side: it reports
      the other side and the row's description. */
  predicate HitFromRow(h: SearchHit, rows: seq<Row>, q: string, k: int) {
    0 <= k < |rows| && Involves(rows[k], q)
    && h.interactingDrug == (if rows[k].drug1 == q then rows[k].drug2 else rows[k].drug1)
    && h.description == rows[k].description
  }

  /** One hit per row that has `q` on either side, in table order. */
  function SearchHits(rows: seq<Row>, q: string): seq<SearchHit> {
    if rows == [] then [] else SearchHits(rows[..|rows| - 1], q) + HitOf(rows[|rows| - 1], q)
  }

  function CountInvolving(rows: seq<Row>, q: string): nat {
    if rows == [] then 0
    else CountInvolving(rows[..|rows| - 1], q) + (if Involves(rows[|rows| - 1], q) then 1 else 0)
  }

  /** A hit per row naming `q`, no more: each names the drug on the other
      side of such a row, with that row's description. */
  lemma {:induction false} SearchHitsFacts(rows: seq<Row>, q: string)
    ensures |SearchHits(rows, q)| == CountInvolving(rows, q) <= |rows|
    ensures forall h :: h in SearchHits(rows, q) ==> exists k :: HitFromRow(h, rows, q, k)
  {
    if rows != [] {
      var init := rows[..|rows| - 1];
      SearchHitsFacts(init, q);
      forall h | h in SearchHits(rows, q) ensures exists k :: HitFromRow(h, rows, q, k) {
        if h in SearchHits(init, q) {
          var k :| HitFromRow(h, init, q, k);
          assert rows[k] == init[k];
          assert HitFromRow(h, rows, q, k);
        } else {
          assert HitFromRow(h, rows, q, |rows| - 1);
        }
      }
    }
  }

  /** The positions of the rows that name `q`, in increasing order. */
  function InvolvedRows(rows: seq<Row>, q: string): (ks: seq<nat>)
    ensures forall k :: 0 <= k < |ks| ==> ks[k] < |rows| && Involves(rows[ks[k]], q)
    ensures forall a, b :: 0 <= a < b < |ks| ==> ks[a] < ks[b]
    ensures forall j :: 0 <= j < |rows| && Involves(rows[j], q) ==> j in ks
  {
    if rows == [] then []
    else
      var init := rows[..|rows| - 1];
      var ks := InvolvedRows(init, q);
      assert forall j :: 0 <= j < |init| ==> init[j] == rows[j];
      ks + (if Involves(rows[|rows| - 1], q) then [|rows| - 1] else [])
  }

  /** Hit by hit: the `k`-th hit comes from the `k`-th row that names `q`,
      so every such row gives a hit and the hits keep table order. */
  lemma {:induction false} SearchHitsRows(rows: seq<Row>, q: string)
    ensures |SearchHits(rows, q)| == |InvolvedRows(rows, q)|
    ensures forall k :: 0 <= k < |SearchHits(rows, q)| ==>
      HitFromRow(SearchHits(rows, q)[k], rows, q, InvolvedRows(rows, q)[k])
  {
    if rows != [] {
      var init := rows[..|rows| - 1];
      SearchHitsRows(init, q);
      var hits0, ks0 := SearchHits(init, q), InvolvedRows(init, q);
      var hits, ks := SearchHits(rows, q), InvolvedRows(rows, q);
      forall k | 0 <= k < |hits0| ensures HitFromRow(hits[k], rows, q, ks[k]) {
        assert hits[k] == hits0[k] && ks[k] == ks0[k];
        assert HitFromRow(hits0[k], init, q, ks0[k]);
        assert rows[ks0[k]] == init[ks0[k]];
      }
    }
  }

  // ---------------------------------------------------------------------
  // Summary

  function CountSeverity(xs: seq<Interaction>, s: Level): nat {
    if xs == [] then 0
    else CountSeverity(xs[..|xs| - 1], s) + (if xs[|xs| - 1].Severity() == s then 1 else 0)
  }

  /** Every record has exactly one of the three severities. */
  lemma {:induction false} SeverityCountsAddUp(xs: seq<Interaction>)
    ensures CountSeverity(xs, High) + CountSeverity(xs, Medium) + CountSeverity(xs, Low) == |xs|
  {
    if xs != [] {
      SeverityCountsAddUp(xs[..|xs| - 1]);
    }
  }

  // ---------------------------------------------------------------------
  // The checker

  class DrugInteractionChecker {
    /** The table, with both drug columns normalised at load time. */
    var rows: seq<Row>

    /** Loads a table, lowercasing and stripping both drug columns. */
    constructor Load(table: seq<Row>)
      ensures |rows| == |table|
      ensures forall k :: 0 <= k < |table| ==> rows[k] == NormalizeRow(table[k])
    {
      rows := seq(|table|, k requires 0 <= k < |table| => NormalizeRow(table[k]));
    }

    /** A missing or unreadable file gives an empty table. */
    constructor Missing()
      ensures rows == []
    {
      rows := [];
    }

    /** `check_interactions`: every pair `i < j` of the list, looked up in
        both directions by normalised name. */
    method CheckInteractions(meds: seq<string>) returns (result: seq<Interaction>)
      ensures result == Interactions(rows, meds)
    {
      if |rows| == 0 {
        return [];
      }
      var normalized := NormalizeAll(meds);
      result := CheckPairs(meds, normalized);
    }

    /** The outer loop of `check_interactions`: row by row, the records of
        every pair `i < j`. */
    method CheckPairs(meds: seq<string>, normalized: seq<string>) returns (result: seq<Interaction>)
      requires |normalized| == |meds|
      ensures result == Collect(rows, meds, normalized, AllPairs(|meds|))
    {
      var n := |meds|;
      result := [];
      var i := 0;
      while i < n
        invariant 0 <= i <= n
        invariant result == Collect(rows, meds, normalized, PairsBefore(i, n))
      {
        CollectNextRow(rows, meds, normalized, i, n);
        result := CheckRow(meds, normalized, i, result);
        i := i + 1;
      }
    }

    /** The inner loop of `check_interactions`: the records of the pairs
        `(i, j)` for `j > i`, appended to those found before. */
    method CheckRow(meds: seq<string>, normalized: seq<string>, i: nat, found: seq<Interaction>)
      returns (result: seq<Interaction>)
      requires i < |meds| == |normalized|
      ensures result == found + Collect(rows, meds, normalized, RowPairs(i, |meds|))
    {
      result := found;
      var j := i + 1;
      while j < |meds|
        invariant i + 1 <= j <= |meds|
        invariant result == found + RowRecords(rows, meds, normalized, i, j)
      {
        var rec := Lookup(rows, normalized[i], normalized[j], meds[i], meds[j]);
        if rec.Some? {
          result := result + [rec.value];
        }
        j := j + 1;
      }
      RowRecordsCollect(rows, meds, normalized, i, |meds|);
    }

    /** `search_drug`: every row with the normalised name on either side. */
    method SearchDrug(drugName: string) returns (results: seq<SearchHit>)
      ensures results == SearchHits(rows, Normalize(drugName))
    {
      var q := Normalize(drugName);
      results := [];
      var k := 0;
      while k < |rows|
        invariant 0 <= k <= |rows|
        invariant results == SearchHits(rows[..k], q)
      {
        assert rows[..k + 1][..k] == rows[..k];
        var r := rows[k];
        if r.drug1 == q || r.drug2 == q {
          var other := if r.drug1 == q then r.drug2 else r.drug1;
          results := results + [SearchHit(other, r.description)];
        }
        k := k + 1;
      }
      assert rows[..k] == rows;
    }

    /** `get_interaction_summary`: the records with their count in total
        and per severity. */
    method GetInteractionSummary(meds: seq<string>) returns (s: Summary)
      ensures s.interactions == Interactions(rows, meds)
      ensures s.total == |s.interactions|
      ensures s.high == CountSeverity(s.interactions, High)
      ensures s.medium == CountSeverity(s.interactions, Medium)
      ensures s.low == CountSeverity(s.interactions, Low)
      ensures s.high + s.medium + s.low == s.total
    {
      var xs := CheckInteractions(meds);
      SeverityCountsAddUp(xs);
      s := Summary(|xs|, CountSeverity(xs, High), CountSeverity(xs, Medium), CountSeverity(xs, Low), xs);
    }
  }
}
