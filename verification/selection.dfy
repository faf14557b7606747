/** The prediction page's client logic in static/js/predict_enhanced.js:
    the list of selected medicines (trimmed, lowercased, without
    duplicates) with the medication-count field kept equal to its length,
    the rule that requests an interaction check, the search gate and the
    OCR quality badge. */
module Selection {
  import opened Text
  import opened Wrappers
  import App
  import MedicineDb

  // ---------------------------------------------------------------------
  // The selected-medicine list

  /** `xs.filter(m => m !== name)`: every entry equal to `name` dropped,
      the others in their order. */
  function Without(xs: seq<string>, name: string): (r: seq<string>)
    ensures |r| <= |xs|
    ensures name !in r
    ensures forall x :: x in r <==> x in xs && x != name
  {
    if xs == [] then []
    else Without(xs[..|xs| - 1], name) + (if xs[|xs| - 1] != name then [xs[|xs| - 1]] else [])
  }

  /** The filter works entry by entry: dropping a name from a
      concatenation concatenates the two filtered parts, so the entries
      kept stay in their order. */
  lemma {:induction false} WithoutAppend(xs: seq<string>, ys: seq<string>, name: string)
    ensures Without(xs + ys, name) == Without(xs, name) + Without(ys, name)
  {
    if ys == [] {
      assert xs + ys == xs;
    } else {
      var init := ys[..|ys| - 1];
      assert (xs + ys)[..|xs + ys| - 1] == xs + init;
      WithoutAppend(xs, init, name);
    }
  }

  /** Dropping a name keeps the list free of duplicates, and on such a
      list removes at most one entry. */
  lemma {:induction false} WithoutFacts(xs: seq<string>, name: string)
    requires NoDuplicates(xs)
    ensures NoDuplicates(Without(xs, name))
    ensures |Without(xs, name)| == if name in xs then |xs| - 1 else |xs|
  {
    if xs != [] {
      var init, last := xs[..|xs| - 1], xs[|xs| - 1];
      assert NoDuplicates(init);
      WithoutFacts(init, name);
      assert last !in init;
      assert xs == init + [last];
    }
  }

  /** Removing a name that was just added restores the list. */
  lemma {:induction false} WithoutUndoesAppend(xs: seq<string>, name: string)
    requires name !in xs
    ensures Without(xs + [name], name) == xs
  {
    assert (xs + [name])[..|xs|] == xs;
    WithoutAbsent(xs, name);
  }

  /** Removing an absent name changes nothing. */
  lemma {:induction false} WithoutAbsent(xs: seq<string>, name: string)
    requires name !in xs
    ensures Without(xs, name) == xs
  {
    if xs != [] {
      var init, last := xs[..|xs| - 1], xs[|xs| - 1];
      assert name !in init && last != name;
      WithoutAbsent(init, name);
      assert xs == init + [last];
    }
  }

  /** Appending a new name keeps a list free of duplicates. */
  lemma AppendKeepsDistinct(xs: seq<string>, name: string)
    requires NoDuplicates(xs) && name !in xs
    ensures NoDuplicates(xs + [name])
  {
    var ys := xs + [name];
    forall a, b | 0 <= a < b < |ys|
      ensures ys[a] != ys[b]
    {
      assert ys[a] == xs[a];
    }
  }

  /** Every entry is a non-empty name without upper-case letters. */
  predicate AllLowered(xs: seq<string>) {
    forall x :: x in xs ==> x != "" && IsLowerCase(x)
  }

  /** Appending a lowercased input keeps every entry lowercased. */
  lemma AppendKeepsLowered(xs: seq<string>, name: string)
    requires AllLowered(xs) && name != ""
    ensures AllLowered(xs + [Lower(name)])
  {
    LowerIsLowerCase(name);
  }

  /** Why `addMedicine` returned. */
  datatype AddOutcome =
    | EmptyName                         // nothing left after trimming
    | AlreadyAdded                      // the lowercased name is in the list
    | Added(checkInteractions: bool)    // appended; whether a check is requested

  class MedicineSelection {
    /** `selectedMedicines`. */
    var selected: seq<string>
    /** The value of the medication-count form field. */
    var medicationCount: int

    /** The list is duplicate-free, every entry is a non-empty lowercased
        name, and the count field shows its length. */
    predicate Valid()
      reads this
    {
      NoDuplicates(selected) && AllLowered(selected) && medicationCount == |selected|
    }

    constructor ()
      ensures selected == [] && medicationCount == 0 && Valid()
    {
      selected := [];
      medicationCount := 0;
    }

    /** `updateMedicineChips`: the count field is set to the list length
        (0 for an empty list). */
    method UpdateMedicineChips()
      modifies this
      ensures selected == old(selected) && medicationCount == |selected|
    {
      if |selected| == 0 {
        medicationCount := 0;
        return;
      }
      medicationCount := |selected|;
    }

    /** `addMedicine`: the trimmed input is rejected when empty, its
        lowercase form is rejected when already listed, and otherwise
        appended; a check is requested once there are two or more. */
    method AddMedicine(input: string) returns (outcome: AddOutcome)
      requires Valid()
      modifies this
      ensures Valid()
      ensures JsTrim(input) == [] ==> outcome == EmptyName && selected == old(selected)
      ensures JsTrim(input) != [] && Lower(JsTrim(input)) in old(selected) ==>
        outcome == AlreadyAdded && selected == old(selected)
      ensures JsTrim(input) != [] && Lower(JsTrim(input)) !in old(selected) ==>
        selected == old(selected) + [Lower(JsTrim(input))]
        && outcome == Added(|selected| >= 2)
    {
      var name := JsTrim(input);
      if name == [] {
        outcome := EmptyName;
      } else if Lower(name) in selected {
        outcome := AlreadyAdded;
      } else {
        var lowered := Lower(name);
        assert AllLowered(selected + [lowered]) by { AppendKeepsLowered(selected, name); }
        assert NoDuplicates(selected + [lowered]) by { AppendKeepsDistinct(selected, lowered); }
        selected := selected + [lowered];
        UpdateMedicineChips();
        outcome := Added(|selected| >= 2);
      }
    }

    /** `removeMedicine`: every entry equal to the name is dropped; the
        result says whether a check is requested (two or more left). */
    method RemoveMedicine(name: string) returns (checkInteractions: bool)
      requires Valid()
      modifies this
      ensures Valid()
      ensures selected == Without(old(selected), name)
      ensures checkInteractions <==> |selected| >= 2
    {
      WithoutFacts(selected, name);
      selected := Without(selected, name);
      UpdateMedicineChips();
      checkInteractions := |selected| >= 2;
    }

    /** The list part of `resetForm`. */
    method ResetForm()
      modifies this
      ensures selected == [] && medicationCount == 0 && Valid()
    {
      selected := [];
      UpdateMedicineChips();
    }
  }

  /** Adding a name and removing it again leaves the list as it was. */
  method AddThenRemove(s: MedicineSelection, input: string)
    requires s.Valid() && JsTrim(input) != [] && Lower(JsTrim(input)) !in s.selected
    modifies s
    ensures s.Valid() && s.selected == old(s.selected)
  {
    var added := s.AddMedicine(input);
    var check := s.RemoveMedicine(Lower(JsTrim(input)));
    WithoutUndoesAppend(old(s.selected), Lower(JsTrim(input)));
  }

  // ---------------------------------------------------------------------
  // Search gate

  /** The input handler searches only when the trimmed query has at least
      two characters. */
  predicate ShouldSearch(input: string) {
    |JsTrim(input)| >= 2
  }

  /** A query the page sends (trimmed, with `limit=10`) always passes the
      server's short-query rule and reaches the database search. */
  lemma GateAgreesWithServer(db: MedicineDb.MedicineDatabase, input: string,
                             closeMatches: MedicineDb.CloseMatcher)
    requires ShouldSearch(input)
    ensures App.SearchRoute(db, Some(JsTrim(input)), Some("10"), closeMatches)
      == Ok(db.SearchMedicine(JsTrim(input), 10, closeMatches))
  {
    App.ExplicitDefaultLimit();
  }

  // ---------------------------------------------------------------------
  // OCR quality badge

  datatype Badge = Badge(badgeClass: string, icon: string, message: string)

  const GoodBadge := Badge("bg-success", "fa-check-circle", "Good quality")
  const PoorBadge := Badge("bg-danger", "fa-exclamation-triangle", "Poor quality - review carefully")
  const ModerateBadge := Badge("bg-warning", "fa-exclamation-circle", "Moderate quality - check text")
  const LowQualityBadge := Badge("bg-danger", "fa-times-circle", "Low quality extraction - try another image")

  /** How many ASCII letters `text` has (`text.match(/[a-zA-Z]/g)`). */
  function CountLetters(text: string): (n: nat)
    ensures n == |set i | 0 <= i < |text| && IsAsciiLetter(text[i])|
    ensures n <= |text|
  {
    if text == [] then 0
    else
      var init := text[..|text| - 1];
      var n := CountLetters(init) + (if IsAsciiLetter(text[|text| - 1]) then 1 else 0);
      assert (set i | 0 <= i < |text| && IsAsciiLetter(text[i]))
          == (set i | 0 <= i < |init| && IsAsciiLetter(init[i]))
             + (if IsAsciiLetter(text[|text| - 1]) then {|text| - 1} else {});
      n
  }

  /** Shorter than 20 characters, or fewer letters than 40% of its length
      (`letters < length * 0.4`, stated exactly as 5 letters < 2 length). */
  predicate Garbled(text: string) {
    |text| < 20 || 5 * CountLetters(text) < 2 * |text|
  }

  /** `showQualityIndicator`: the badge follows the server's verdict and is
      then overridden when the text looks garbled. */
  method ShowQualityIndicator(quality: string, text: string) returns (b: Badge)
    ensures Garbled(text) ==> b == LowQualityBadge
    ensures !Garbled(text) && quality == "poor" ==> b == PoorBadge
    ensures !Garbled(text) && quality == "moderate" ==> b == ModerateBadge
    ensures !Garbled(text) && quality != "poor" && quality != "moderate" ==> b == GoodBadge
  {
    var badgeClass := "bg-success";
    var icon := "fa-check-circle";
    var message := "Good quality";
    if quality == "poor" {
      badgeClass := "bg-danger";
      icon := "fa-exclamation-triangle";
      message := "Poor quality - review carefully";
    } else if quality == "moderate" {
      badgeClass := "bg-warning";
      icon := "fa-exclamation-circle";
      message := "Moderate quality - check text";
    }
    if |text| < 20 || 5 * CountLetters(text) < 2 * |text| {
      badgeClass := "bg-danger";
      icon := "fa-times-circle";
      message := "Low quality extraction - try another image";
    }
    b := Badge(badgeClass, icon, message);
  }

  /** Text made only of letters is never garbled once it has 20
      characters, and no text under 20 characters escapes the override. */
  lemma {:induction false} AllLettersNotGarbled(text: string)
    requires forall i :: 0 <= i < |text| ==> IsAsciiLetter(text[i])
    ensures CountLetters(text) == |text|
    ensures Garbled(text) <==> |text| < 20
  {
    if text != [] {
      AllLettersNotGarbled(text[..|text| - 1]);
    }
  }
}
