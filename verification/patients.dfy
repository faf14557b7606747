/** The patient list page of static/js/patients.js: the name search and
    risk filter, deleting a row, and the three colour maps. */
module Patients {
  import opened Wrappers
  import opened Text
  import Predictor

  /** The fields of a stored patient the page reads. */
  datatype Patient = Patient(name: Option<string>, riskLevel: Option<string>)

  /** `(patient.name || '')`. */
  function NameOf(p: Patient): string {
    if p.name.Some? then p.name.value else ""
  }

  // ---------------------------------------------------------------------
  // Filtering

  /** The filter's test with the search term already lowercased: an empty
      term or risk lets everything through. */
  predicate Keeps(p: Patient, term: string, risk: string) {
    (term == "" || Contains(Lower(NameOf(p)), term)) && (risk == "" || p.riskLevel == Some(risk))
  }

  /** The first filter: names containing the term. */
  function ByName(xs: seq<Patient>, term: string): seq<Patient> {
    if xs == [] then []
    else
      var last := xs[|xs| - 1];
      ByName(xs[..|xs| - 1], term) + (if Contains(Lower(NameOf(last)), term) then [last] else [])
  }

  /** The second filter: exactly the given tier. */
  function ByRisk(xs: seq<Patient>, risk: string): seq<Patient> {
    if xs == [] then []
    else
      var last := xs[|xs| - 1];
      ByRisk(xs[..|xs| - 1], risk) + (if last.riskLevel == Some(risk) then [last] else [])
  }

  /** The name filter keeps only listed patients whose name contains the term. */
  lemma {:induction false} ByNameSound(xs: seq<Patient>, term: string)
    ensures |ByName(xs, term)| <= |xs|
    ensures forall x :: x in ByName(xs, term) ==> x in xs && Contains(Lower(NameOf(x)), term)
  {
    if xs != [] {
      ByNameSound(xs[..|xs| - 1], term);
    }
  }

  /** The tier filter keeps only listed patients of that tier. */
  lemma {:induction false} ByRiskSound(xs: seq<Patient>, risk: string)
    ensures |ByRisk(xs, risk)| <= |xs|
    ensures forall x :: x in ByRisk(xs, risk) ==> x in xs && x.riskLevel == Some(risk)
  {
    if xs != [] {
      ByRiskSound(xs[..|xs| - 1], risk);
    }
  }

  /** `filterPatients`: the lowercased search term filters by name when it
      is non-empty, then a non-empty risk filters by tier. */
  function FilterPatients(all: seq<Patient>, searchInput: string, risk: string): (r: seq<Patient>)
    ensures |r| <= |all|
    ensures forall x :: x in r ==> x in all && Keeps(x, Lower(searchInput), risk)
  {
    var term := Lower(searchInput);
    ByNameSound(all, term);
    ByRiskSound(if term != "" then ByName(all, term) else all, risk);
    var byName := if term != "" then ByName(all, term) else all;
    if risk != "" then ByRisk(byName, risk) else byName
  }

  /** The positions of `all` the filter keeps, in increasing order; every
      kept position is listed. */
  function KeptIndices(all: seq<Patient>, term: string, risk: string): (ix: seq<nat>)
    ensures forall k :: 0 <= k < |ix| ==> ix[k] < |all| && Keeps(all[ix[k]], term, risk)
    ensures forall a, b :: 0 <= a < b < |ix| ==> ix[a] < ix[b]
    ensures forall i :: 0 <= i < |all| && Keeps(all[i], term, risk) ==> i in ix
  {
    if all == [] then []
    else
      var n: nat := |all| - 1;
      var front := KeptIndices(all[..n], term, risk);
      assert forall k :: 0 <= k < |front| ==> all[front[k]] == all[..n][front[k]];
      front + (if Keeps(all[n], term, risk) then [n] else [])
  }

  /** The entries of `xs` at the positions `ix`. */
  function Pick(xs: seq<Patient>, ix: seq<nat>): (r: seq<Patient>)
    requires forall k :: 0 <= k < |ix| ==> ix[k] < |xs|
    ensures |r| == |ix| && forall k :: 0 <= k < |ix| ==> r[k] == xs[ix[k]]
  {
    seq(|ix|, k requires 0 <= k < |ix| => xs[ix[k]])
  }

  /** The two filters in a row keep exactly the patients `Keeps` accepts. */
  lemma {:induction false} TwoFiltersAreOne(xs: seq<Patient>, term: string, risk: string)
    requires term != "" && risk != ""
    ensures ByRisk(ByName(xs, term), risk) == Pick(xs, KeptIndices(xs, term, risk))
  {
    if xs != [] {
      var n := |xs| - 1;
      TwoFiltersAreOne(xs[..n], term, risk);
      ByRiskAppend(ByName(xs[..n], term), if Contains(Lower(NameOf(xs[n])), term) then [xs[n]] else [], risk);
      PickPrefix(xs, KeptIndices(xs[..n], term, risk));
    }
  }

  /** The name filter alone keeps what `Keeps` accepts with no tier. */
  lemma {:induction false} ByNameIsKeeps(xs: seq<Patient>, term: string)
    requires term != ""
    ensures ByName(xs, term) == Pick(xs, KeptIndices(xs, term, ""))
  {
    if xs != [] {
      var n := |xs| - 1;
      ByNameIsKeeps(xs[..n], term);
      PickPrefix(xs, KeptIndices(xs[..n], term, ""));
    }
  }

  /** The tier filter alone keeps what `Keeps` accepts with no term. */
  lemma {:induction false} ByRiskIsKeeps(xs: seq<Patient>, risk: string)
    requires risk != ""
    ensures ByRisk(xs, risk) == Pick(xs, KeptIndices(xs, "", risk))
  {
    if xs != [] {
      var n := |xs| - 1;
      ByRiskIsKeeps(xs[..n], risk);
      PickPrefix(xs, KeptIndices(xs[..n], "", risk));
    }
  }

  /** With neither criterion every position is kept, in order. */
  lemma {:induction false} AllIndicesKept(xs: seq<Patient>)
    ensures |KeptIndices(xs, "", "")| == |xs|
    ensures forall k :: 0 <= k < |xs| ==> KeptIndices(xs, "", "")[k] == k
  {
    if xs != [] {
      AllIndicesKept(xs[..|xs| - 1]);
    }
  }

  /** Positions into a prefix pick the same entries from the whole. */
  lemma PickPrefix(xs: seq<Patient>, ix: seq<nat>)
    requires xs != [] && forall k :: 0 <= k < |ix| ==> ix[k] < |xs| - 1
    ensures Pick(xs[..|xs| - 1], ix) == Pick(xs, ix)
    ensures Pick(xs, ix + [|xs| - 1]) == Pick(xs, ix) + [xs[|xs| - 1]]
  {
  }

  lemma {:induction false} ByRiskAppend(xs: seq<Patient>, ys: seq<Patient>, risk: string)
    ensures ByRisk(xs + ys, risk) == ByRisk(xs, risk) + ByRisk(ys, risk)
    decreases |ys|
  {
    if ys == [] {
      assert xs + ys == xs;
    } else {
      var m := |ys| - 1;
      assert (xs + ys)[..|xs + ys| - 1] == xs + ys[..m];
      ByRiskAppend(xs, ys[..m], risk);
    }
  }

  /** The filter's result is the subsequence of `all` at the kept
      positions: order-preserving, and containing every patient whose name
      holds the lowercased term (a missing name counting as empty) and
      whose tier is the one asked for. */
  lemma FilterIsKeptSubsequence(all: seq<Patient>, searchInput: string, risk: string)
    ensures FilterPatients(all, searchInput, risk) == Pick(all, KeptIndices(all, Lower(searchInput), risk))
  {
    var term := Lower(searchInput);
    if term != "" && risk != "" {
      TwoFiltersAreOne(all, term, risk);
    } else if term != "" {
      ByNameIsKeeps(all, term);
    } else if risk != "" {
      ByRiskIsKeeps(all, risk);
    } else {
      AllIndicesKept(all);
      assert Pick(all, KeptIndices(all, term, risk)) == all;
    }
  }

  /** With no term and no tier every patient is shown, in order. */
  lemma NoCriteriaShowsAll(all: seq<Patient>)
    ensures FilterPatients(all, "", "") == all
  {
  }

  // ---------------------------------------------------------------------
  // Deleting

  /** `xs.splice(index, 1)` on a copy: a negative index counts from the
      end, and an index past the end removes nothing. */
  function SpliceOne(xs: seq<Patient>, index: int): (r: seq<Patient>)
    ensures 0 <= index < |xs| ==> r == xs[..index] + xs[index + 1..]
    ensures index >= |xs| ==> r == xs
    ensures index < -|xs| && xs != [] ==> r == xs[1..]
    ensures -|xs| <= index < 0 ==> r == xs[..|xs| + index] + xs[|xs| + index + 1..]
  {
    var start := if index < 0 then (if |xs| + index < 0 then 0 else |xs| + index)
                 else if index > |xs| then |xs| else index;
    if start < |xs| then xs[..start] + xs[start + 1..] else xs
  }

  /** Removing position `i` shortens the list by one, keeps the entries
      before it and shifts those after it down by one. */
  lemma RemoveAtShape(xs: seq<Patient>, i: nat)
    requires i < |xs|
    ensures var r := SpliceOne(xs, i);
      |r| == |xs| - 1
      && (forall k :: 0 <= k < i ==> r[k] == xs[k])
      && (forall k :: i <= k < |r| ==> r[k] == xs[k + 1])
  {
  }

  /** The page's list of patients, which `deletePatient` edits in place. */
  class PatientsPage {
    var allPatients: seq<Patient>

    constructor (patients: seq<Patient>)
      ensures allPatients == patients
    {
      allPatients := patients;
    }

    /** The rows on show for the current search input and tier. */
    function Shown(searchInput: string, risk: string): seq<Patient>
      reads this
    {
      FilterPatients(allPatients, searchInput, risk)
    }

    /** `deletePatient` as written: once confirmed, the entry of
        `allPatients` at the row's index is removed. */
    method DeletePatient(index: int, confirmed: bool)
      modifies this
      ensures allPatients == if confirmed then SpliceOne(old(allPatients), index) else old(allPatients)
    {
      if confirmed {
        allPatients := SpliceOne(allPatients, index);
      }
    }

    /** The delete the page evidently intends: the row index is a position
        in the filtered list, so it is mapped back to the patient's
        position in `allPatients` before removing it. */
    method DeleteShownPatient(searchInput: string, risk: string, shownIndex: int, confirmed: bool)
      modifies this
      ensures var ix := KeptIndices(old(allPatients), Lower(searchInput), risk);
        allPatients == if confirmed && 0 <= shownIndex < |ix| then SpliceOne(old(allPatients), ix[shownIndex])
                       else old(allPatients)
      ensures confirmed && 0 <= shownIndex < |old(Shown(searchInput, risk))| ==>
        exists j :: 0 <= j < |old(allPatients)|
          && old(allPatients)[j] == old(Shown(searchInput, risk))[shownIndex]
          && allPatients == old(allPatients)[..j] + old(allPatients)[j + 1..]
    {
      var ix := KeptIndices(allPatients, Lower(searchInput), risk);
      FilterIsKeptSubsequence(allPatients, searchInput, risk);
      if confirmed && 0 <= shownIndex < |ix| {
        var j := ix[shownIndex];
        allPatients := SpliceOne(allPatients, j);
        assert old(allPatients)[j] == old(Shown(searchInput, risk))[shownIndex];
      }
    }
  }

  /** The as-written delete removes the wrong patient while a filter is on:
      with Ann and Bob listed and "bob" typed in the search box, Bob is the
      only row shown, at index 0, and deleting it removes Ann. */
  lemma FilteredDeleteRemovesWrongPatient()
    ensures var ann := Patient(Some("Ann"), Some("Low"));
      var bob := Patient(Some("Bob"), Some("High"));
      FilterPatients([ann, bob], "bob", "") == [bob]
      && SpliceOne([ann, bob], 0) == [bob]
  {
    var ann := Patient(Some("Ann"), Some("Low"));
    var bob := Patient(Some("Bob"), Some("High"));
    assert Lower("bob") == "bob";
    assert Lower("Bob") == "bob";
    assert Lower("Ann") == "ann";
    assert OccursAt("bob", "bob", 0);
    assert !OccursAt("ann", "bob", 0) by { assert "ann"[0] != "bob"[0]; }
    assert !Contains("ann", "bob");
    assert [ann, bob][..1] == [ann];
    assert [ann][..0] == [];
    assert ByName([ann], "bob") == [];
    assert ByName([ann, bob], "bob") == [bob];
  }

  /** With no search term and no tier the row index is the position in
      `allPatients`, and the corrected delete is the as-written one. */
  lemma UnfilteredIndicesAreIdentity(all: seq<Patient>)
    ensures |KeptIndices(all, "", "")| == |all|
    ensures forall index :: 0 <= index < |all| ==>
      SpliceOne(all, KeptIndices(all, "", "")[index]) == SpliceOne(all, index)
  {
    AllIndicesKept(all);
  }

  // ---------------------------------------------------------------------
  // Colours

  /** `getRiskColor`. */
  function RiskColor(riskLevel: string): (c: string)
    ensures c == "secondary" <==> riskLevel !in ["Low", "Medium", "High"]
  {
    if riskLevel == "Low" then "success"
    else if riskLevel == "Medium" then "warning"
    else if riskLevel == "High" then "danger"
    else "secondary"
  }

  /** `getScoreColor`: success from 80, warning on [60, 80), danger below. */
  function ScoreColor(score: real): (c: string)
    ensures c == "success" <==> score >= 80.0
    ensures c == "warning" <==> 60.0 <= score < 80.0
    ensures c == "danger" <==> score < 60.0
  {
    if score >= 80.0 then "success"
    else if score >= 60.0 then "warning"
    else "danger"
  }

  /** `getPriorityColor`. */
  function PriorityColor(priority: string): (c: string)
    ensures c == "secondary" <==> priority !in ["high", "medium", "low"]
  {
    if priority == "high" then "danger"
    else if priority == "medium" then "warning"
    else if priority == "low" then "info"
    else "secondary"
  }

  /** The page colours a score and its tier name as the server does: the
      same 80/60 thresholds and the same tier colours. */
  lemma ColoursMatchServer(score: real, level: Predictor.RiskLevel)
    ensures ScoreColor(score) == Predictor.ColorName(Predictor.TierColor(Predictor.ClassifyRisk(score)))
    ensures RiskColor(Predictor.LevelName(level)) == Predictor.ColorName(Predictor.TierColor(level))
  {
  }

  /** Every recommendation the scorer emits has a priority the page
      colours. */
  lemma AdvicePrioritiesColoured(t: Predictor.Trigger)
    ensures PriorityColor(Predictor.Advice(t).priority) in ["danger", "warning"]
  {
  }
}
