/** The text-recognition post-processing: cleaning recognised text,
    extracting medicine names from the pattern matches, the suggestions
    for digits that are often misread letters, and the shape of the result
    on success and on failure.  The recogniser and the two pattern searches
    are inputs. */
module Ocr {
  import opened Wrappers
  import opened Text

  // ---------------------------------------------------------------------
  // _clean_text

  /** Drops the leading whitespace of `s`: what is left starts with a
      non-whitespace character and has the same non-whitespace characters. */
  function DropSpaces(s: string): (r: string)
    ensures |r| <= |s|
    ensures r != [] ==> !IsPySpace(r[0])
    ensures NonSpaces(r) == NonSpaces(s)
  {
    if s != [] && IsPySpace(s[0]) then
      assert NonSpaces(s) == NonSpaces(s[1..]);
      DropSpaces(s[1..])
    else s
  }

  /** The non-whitespace characters of `s`, in order. */
  function NonSpaces(s: string): string {
    if s == [] then [] else (if IsPySpace(s[0]) then [] else [s[0]]) + NonSpaces(s[1..])
  }

  /** `re.sub(r'\s+', ' ', s)`: each run of whitespace becomes one space. */
  function CollapseSpaces(s: string): (r: string)
    ensures forall i :: 0 <= i < |r| && IsPySpace(r[i]) ==> r[i] == ' '
    decreases |s|
  {
    if s == [] then []
    else if IsPySpace(s[0]) then [' '] + CollapseSpaces(DropSpaces(s[1..]))
    else [s[0]] + CollapseSpaces(s[1..])
  }

  /** Collapsing leaves no two whitespace characters side by side, keeps
      the non-whitespace characters of `s` in their order, starts with
      whitespace exactly when `s` does, and never lengthens the text. */
  lemma {:induction false} CollapseSpacesFacts(s: string)
    ensures var r := CollapseSpaces(s);
      && (forall i :: 0 <= i < |r| && r[i] != ' ' ==> r[i] in s)
      && (forall i :: 0 <= i < |r| - 1 ==> !(IsPySpace(r[i]) && IsPySpace(r[i + 1])))
      && NonSpaces(r) == NonSpaces(s)
      && (s != [] ==> r != [] && (IsPySpace(r[0]) <==> IsPySpace(s[0])))
      && |r| <= |s|
    decreases |s|
  {
    if s != [] {
      var r := CollapseSpaces(s);
      if IsPySpace(s[0]) {
        var d := DropSpaces(s[1..]);
        CollapseSpacesFacts(d);
        DropSpacesIsSuffix(s[1..]);
        var rest := CollapseSpaces(d);
        assert r == [' '] + rest;
        assert r[1..] == rest;
        assert NonSpaces(s) == NonSpaces(s[1..]);
      } else {
        CollapseSpacesFacts(s[1..]);
        var rest := CollapseSpaces(s[1..]);
        assert r == [s[0]] + rest;
        assert r[1..] == rest;
      }
    }
  }

  /** Text that starts with a non-whitespace character is collapsed on
      its own: whitespace never merges across that character, so what
      comes before it is collapsed separately. */
  lemma {:induction false} CollapseAppend(a: string, t: string)
    requires t != [] && !IsPySpace(t[0])
    ensures CollapseSpaces(a + t) == CollapseSpaces(a) + CollapseSpaces(t)
    decreases |a|
  {
    if a == [] {
      assert a + t == t;
    } else {
      if IsPySpace(a[0]) {
        CollapseAppend(DropSpaces(a[1..]), t);
        CollapseStepSpace(a, t);
      } else {
        CollapseAppend(a[1..], t);
        CollapseStepChar(a, t);
      }
    }
  }

  /** The step of `CollapseAppend` when `a` starts with whitespace: the
      run becomes one space and the rest is collapsed after dropping it. */
  lemma CollapseStepSpace(a: string, t: string)
    requires t != [] && !IsPySpace(t[0]) && a != [] && IsPySpace(a[0])
    requires CollapseSpaces(DropSpaces(a[1..]) + t) == CollapseSpaces(DropSpaces(a[1..])) + CollapseSpaces(t)
    ensures CollapseSpaces(a + t) == CollapseSpaces(a) + CollapseSpaces(t)
  {
    var d := DropSpaces(a[1..]);
    TailOfAppend(a, t);
    CollapseSpaceHead(a + t);
    CollapseSpaceHead(a);
    DropSpacesAppend(a[1..], t);
    ConsAppend(' ', CollapseSpaces(d), CollapseSpaces(t));
  }

  /** Text that starts with whitespace collapses to a space followed by
      the collapse of what is left once that run is dropped. */
  lemma CollapseSpaceHead(s: string)
    requires s != [] && IsPySpace(s[0])
    ensures CollapseSpaces(s) == [' '] + CollapseSpaces(DropSpaces(s[1..]))
  {
  }

  /** The step of `CollapseAppend` when `a` starts with another character:
      it is kept. */
  lemma CollapseStepChar(a: string, t: string)
    requires t != [] && a != [] && !IsPySpace(a[0])
    requires CollapseSpaces(a[1..] + t) == CollapseSpaces(a[1..]) + CollapseSpaces(t)
    ensures CollapseSpaces(a + t) == CollapseSpaces(a) + CollapseSpaces(t)
  {
    calc {
      CollapseSpaces(a + t);
    == { TailOfAppend(a, t); }
      [a[0]] + CollapseSpaces(a[1..] + t);
    ==
      [a[0]] + (CollapseSpaces(a[1..]) + CollapseSpaces(t));
    ==
      ([a[0]] + CollapseSpaces(a[1..])) + CollapseSpaces(t);
    }
  }

  /** A non-whitespace character is kept as it is. */
  lemma CollapseAtChar(c: char, b: string)
    requires !IsPySpace(c)
    ensures CollapseSpaces([c] + b) == [c] + CollapseSpaces(b)
  {
    assert ([c] + b)[1..] == b;
  }

  /** A non-empty run of whitespace alone becomes one space. */
  lemma {:induction false} CollapseRun(w: string)
    requires w != [] && forall i :: 0 <= i < |w| ==> IsPySpace(w[i])
    ensures CollapseSpaces(w) == " "
  {
    DropAllSpaces(w[1..]);
  }

  lemma {:induction false} DropAllSpaces(w: string)
    requires forall i :: 0 <= i < |w| ==> IsPySpace(w[i])
    ensures DropSpaces(w) == []
  {
    if w != [] {
      DropAllSpaces(w[1..]);
    }
  }

  /** Dropping leading whitespace stops at a non-whitespace character. */
  lemma {:induction false} DropSpacesAppend(x: string, y: string)
    requires y != [] && !IsPySpace(y[0])
    ensures DropSpaces(x + y) == DropSpaces(x) + y
  {
    if x == [] {
      assert x + y == y;
    } else {
      assert (x + y)[0] == x[0] && (x + y)[1..] == x[1..] + y;
      if IsPySpace(x[0]) {
        DropSpacesAppend(x[1..], y);
      }
    }
  }

  lemma {:induction false} DropSpacesIsSuffix(s: string)
    ensures forall c :: c in DropSpaces(s) ==> c in s
  {
    if s != [] && IsPySpace(s[0]) {
      DropSpacesIsSuffix(s[1..]);
    }
  }

  /** What the character filter keeps: word characters, whitespace and `. , : - ( )`. */
  predicate Kept(c: char) {
    IsWordChar(c) || IsPySpace(c) || c == '.' || c == ',' || c == ':' || c == '-' || c == '(' || c == ')'
  }

  /** `re.sub(r'[^\w\s\.\,\:\-\(\)]', '', s)`: the kept characters, in
      order; a string of kept characters only is left as it is. */
  function KeepAllowed(s: string): (r: string)
    ensures forall i :: 0 <= i < |r| ==> Kept(r[i])
    ensures forall i :: 0 <= i < |r| ==> r[i] in s
    ensures (forall i :: 0 <= i < |s| ==> Kept(s[i])) ==> r == s
  {
    if s == [] then []
    else (if Kept(s[0]) then [s[0]] else []) + KeepAllowed(s[1..])
  }

  /** The filter works character by character: filtering a concatenation
      concatenates the filtered parts, so every kept character survives
      and the order is unchanged. */
  lemma {:induction false} KeepAllowedAppend(a: string, b: string)
    ensures KeepAllowed(a + b) == KeepAllowed(a) + KeepAllowed(b)
  {
    if a != [] {
      TailOfAppend(a, b);
      KeepAllowedAppend(a[1..], b);
    } else {
      assert a + b == b;
    }
  }

  /** `str.capitalize`: the first character upper case, the rest lower case. */
  function Capitalize(s: string): (r: string)
    ensures |r| == |s|
  {
    if s == [] then [] else [UpperChar(s[0])] + Lower(s[1..])
  }

  /** The stripped, capitalised non-blank segments. */
  function CleanSegments(parts: seq<string>): seq<string> {
    if parts == [] then []
    else
      var t := PyStrip(parts[|parts| - 1]);
      CleanSegments(parts[..|parts| - 1]) + (if t != "" then [Capitalize(t)] else [])
  }

  /** The text after collapsing whitespace and dropping other characters. */
  function Filtered(text: string): string {
    KeepAllowed(CollapseSpaces(text))
  }

  /** `_clean_text`: the cleaned text holds only word characters, plain
      spaces and `. , : - ( )`. */
  function CleanText(text: string): (r: string)
    ensures forall i :: 0 <= i < |r| ==> CleanChar(r[i])
  {
    var segs := CleanSegments(Split(Filtered(text), '.'));
    TextSegmentsClean(text);
    JoinClean(segs);
    Join(segs, ". ")
  }

  /** The characters that can appear in cleaned text: word characters, the
      plain space and `. , : - ( )`; no other whitespace survives. */
  predicate CleanChar(c: char) {
    IsWordChar(c) || c == ' ' || c == '.' || c == ',' || c == ':' || c == '-' || c == '(' || c == ')'
  }

  /** A segment of cleaned text: not empty, no full stop, no whitespace at
      either end, clean characters, first character not a lower-case
      letter and the others not upper-case letters. */
  predicate CleanSegment(p: string) {
    p != [] && '.' !in p
    && !IsPySpace(p[0]) && !IsPySpace(p[|p| - 1])
    && (forall i :: 0 <= i < |p| ==> CleanChar(p[i]))
    && !IsLower(p[0]) && (forall i :: 1 <= i < |p| ==> !IsUpper(p[i]))
  }

  /** Case mapping changes letters only, so it keeps clean characters clean
      and whitespace whitespace. */
  lemma CaseMapping(c: char)
    ensures CleanChar(c) ==> CleanChar(UpperChar(c)) && CleanChar(LowerChar(c))
    ensures IsPySpace(UpperChar(c)) <==> IsPySpace(c)
    ensures IsPySpace(LowerChar(c)) <==> IsPySpace(c)
    ensures UpperChar(c) == '.' <==> c == '.'
    ensures LowerChar(c) == '.' <==> c == '.'
    ensures !IsLower(UpperChar(c)) && !IsUpper(LowerChar(c))
  {
  }

  /** The characters of `Capitalize(t)`: the first upper-cased, the rest
      lower-cased. */
  lemma CapitalizeChars(t: string)
    requires t != []
    ensures Capitalize(t)[0] == UpperChar(t[0])
    ensures forall i :: 1 <= i < |t| ==> Capitalize(t)[i] == LowerChar(t[i])
  {
    var r := Capitalize(t);
    forall i | 1 <= i < |t| ensures r[i] == LowerChar(t[i]) {
      assert r[i] == Lower(t[1..])[i - 1];
    }
  }

  /** Capitalising a stripped piece of filtered text gives a clean segment. */
  lemma CapitalizeSegment(t: string)
    requires t != [] && '.' !in t
    requires !IsPySpace(t[0]) && !IsPySpace(t[|t| - 1])
    requires forall i :: 0 <= i < |t| ==> CleanChar(t[i])
    ensures CleanSegment(Capitalize(t))
  {
    var r := Capitalize(t);
    CapitalizeChars(t);
    forall i | 0 <= i < |t|
      ensures CleanChar(r[i]) && r[i] != '.' && (i >= 1 ==> !IsUpper(r[i]))
    {
      CaseMapping(t[i]);
      assert t[i] != '.';
    }
    assert '.' !in r;
    assert !IsPySpace(r[0]) && !IsLower(r[0]) by { CaseMapping(t[0]); }
    assert !IsPySpace(r[|r| - 1]) by { CaseMapping(t[|t| - 1]); }
  }

  /** A piece between full stops of filtered text: clean characters and
      no full stop. */
  predicate CleanPiece(p: string) {
    '.' !in p && forall i :: 0 <= i < |p| ==> CleanChar(p[i])
  }

  /** Every segment of the cleaned text is a clean segment. */
  lemma {:induction false} CleanSegmentsFacts(parts: seq<string>)
    requires forall k :: 0 <= k < |parts| ==> CleanPiece(parts[k])
    ensures |CleanSegments(parts)| <= |parts|
    ensures forall k :: 0 <= k < |CleanSegments(parts)| ==> CleanSegment(CleanSegments(parts)[k])
  {
    if parts != [] {
      var init, p := parts[..|parts| - 1], parts[|parts| - 1];
      assert forall k :: 0 <= k < |init| ==> CleanPiece(init[k]) by {
        forall k | 0 <= k < |init| ensures CleanPiece(init[k]) {
          assert init[k] == parts[k];
        }
      }
      CleanSegmentsFacts(init);
      if PyStrip(p) != "" {
        assert CleanSegment(Capitalize(PyStrip(p))) by {
          assert CleanPiece(p);
          StrippedPieceClean(p);
        }
      }
    }
  }

  /** A stripped piece of filtered text, capitalised, is a clean segment. */
  lemma StrippedPieceClean(p: string)
    requires CleanPiece(p) && PyStrip(p) != ""
    ensures CleanSegment(Capitalize(PyStrip(p)))
  {
    StripKeepsClean(p);
    CapitalizeSegment(PyStrip(p));
  }

  /** Stripping keeps a piece clean: it only drops characters. */
  lemma StripKeepsClean(p: string)
    requires CleanPiece(p)
    ensures CleanPiece(PyStrip(p))
  {
    var t := PyStrip(p);
    var lo :| StrippedAt(p, IsPySpace, lo, t);
    forall i | 0 <= i < |t| ensures CleanChar(t[i]) && t[i] != '.' {
      assert t[i] == p[lo + i];
    }
  }

  /** Whitespace is collapsed to spaces before filtering, so the filtered
      text holds only clean characters. */
  lemma FilteredIsClean(text: string)
    ensures forall i :: 0 <= i < |Filtered(text)| ==> CleanChar(Filtered(text)[i])
  {
    var c := CollapseSpaces(text);
    var f := KeepAllowed(c);
    forall i | 0 <= i < |f| ensures CleanChar(f[i]) {
      assert f[i] in c;
      var j :| 0 <= j < |c| && c[j] == f[i];
    }
  }

  /** The pieces between full stops of the filtered text hold only clean
      characters and no full stop. */
  lemma PartsClean(text: string)
    ensures var parts := Split(Filtered(text), '.');
      forall k :: 0 <= k < |parts| ==> CleanPiece(parts[k])
  {
    var f := Filtered(text);
    FilteredIsClean(text);
    var parts := Split(f, '.');
    forall k | 0 <= k < |parts| ensures CleanPiece(parts[k]) {
      forall i | 0 <= i < |parts[k]| ensures CleanChar(parts[k][i]) {
        var j :| 0 <= j < |f| && f[j] == parts[k][i];
      }
    }
  }

  /** Every segment of the cleaned text is a clean segment. */
  lemma TextSegmentsClean(text: string)
    ensures forall k :: 0 <= k < |CleanSegments(Split(Filtered(text), '.'))| ==>
      CleanSegment(CleanSegments(Split(Filtered(text), '.'))[k])
  {
    PartsClean(text);
    CleanSegmentsFacts(Split(Filtered(text), '.'));
  }

  /** Joining clean segments with ". " gives clean characters only. */
  lemma {:induction false} JoinClean(segs: seq<string>)
    requires forall k :: 0 <= k < |segs| ==> CleanSegment(segs[k])
    ensures forall i :: 0 <= i < |Join(segs, ". ")| ==> CleanChar(Join(segs, ". ")[i])
  {
    if |segs| > 1 {
      var init := segs[..|segs| - 1];
      JoinClean(init);
      var a := Join(init, ". ");
      var last := segs[|segs| - 1];
      assert CleanSegment(last);
      forall i | 0 <= i < |a + ". " + last| ensures CleanChar((a + ". " + last)[i]) {
        if i >= |a| + 2 {
          assert (a + ". " + last)[i] == last[i - |a| - 2];
        } else if i >= |a| {
          assert (a + ". " + last)[i] == ". "[i - |a|];
        } else {
          assert (a + ". " + last)[i] == a[i];
        }
      }
    } else if |segs| == 1 {
      assert CleanSegment(segs[0]);
    }
  }

  /** Cleaned text neither starts nor ends with whitespace, and it is empty
      exactly when no segment survives. */
  lemma CleanTextEnds(text: string)
    ensures CleanText(text) == [] <==> CleanSegments(Split(Filtered(text), '.')) == []
    ensures CleanText(text) != [] ==>
      !IsPySpace(CleanText(text)[0]) && !IsPySpace(CleanText(text)[|CleanText(text)| - 1])
  {
    TextSegmentsClean(text);
    var segs := CleanSegments(Split(Filtered(text), '.'));
    if segs != [] {
      JoinEnds(segs, ". ");
      assert CleanSegment(segs[0]) && CleanSegment(segs[|segs| - 1]);
    }
  }

  // ---------------------------------------------------------------------
  // _get_suggestions

  const SuggestionCount: nat := 4

  /** The digits checked, in the order of the table. */
  function DigitAt(k: nat): char
    requires k < SuggestionCount
  {
    if k == 0 then '0' else if k == 1 then '1' else if k == 2 then '5' else '8'
  }

  /** The letters each digit may stand for. */
  function LetterAt(k: nat): string
    requires k < SuggestionCount
  {
    if k == 0 then "O" else if k == 1 then "I or l" else if k == 2 then "S" else "B"
  }

  /** `f"Check if '{digit}' should be '{letter}'"`. */
  function SuggestionMessage(digit: char, letter: string): (m: string)
    ensures |m| > 10 && m[10] == digit
  {
    "Check if '" + [digit] + "' should be '" + letter + "'"
  }

  function SuggestionAt(k: nat): string
    requires k < SuggestionCount
  {
    SuggestionMessage(DigitAt(k), LetterAt(k))
  }

  /** The ranks below `n` of the table digits that occur in the text, ascending. */
  function FoundUpTo(text: string, n: nat): (r: seq<nat>)
    requires n <= SuggestionCount
    ensures forall i :: 0 <= i < |r| ==> r[i] < n
  {
    if n == 0 then []
    else
      var k: nat := n - 1;
      FoundUpTo(text, k) + (if DigitAt(k) in text then [k] else [])
  }

  /** The suggestions for a list of table ranks. */
  function Messages(ks: seq<nat>): (r: seq<string>)
    requires forall i :: 0 <= i < |ks| ==> ks[i] < SuggestionCount
    ensures |r| == |ks|
    ensures forall i :: 0 <= i < |ks| ==> r[i] == SuggestionAt(ks[i])
  {
    seq(|ks|, i requires 0 <= i < |ks| => SuggestionAt(ks[i]))
  }

  /** The ranks found are exactly those whose digit occurs, ascending. */
  lemma {:induction false} FoundUpToFacts(text: string, n: nat)
    requires n <= SuggestionCount
    ensures |FoundUpTo(text, n)| <= n
    ensures forall k: nat :: k in FoundUpTo(text, n) <==> k < n && DigitAt(k) in text
    ensures forall i, j :: 0 <= i < j < |FoundUpTo(text, n)| ==> FoundUpTo(text, n)[i] < FoundUpTo(text, n)[j]
  {
    if n > 0 {
      FoundUpToFacts(text, n - 1);
    }
  }

  /** `_get_suggestions` as a value: one message per table digit in the text. */
  function Suggestions(text: string): seq<string> {
    Messages(FoundUpTo(text, SuggestionCount))
  }

  /** Different table entries give different messages. */
  lemma SuggestionAtInjective(k: nat, m: nat)
    requires k < SuggestionCount && m < SuggestionCount && k != m
    ensures SuggestionAt(k) != SuggestionAt(m)
  {
    assert SuggestionAt(k)[10] != SuggestionAt(m)[10];
  }

  /** One suggestion exactly for each table digit in the text, at most four. */
  lemma SuggestionsMembers(text: string)
    ensures |Suggestions(text)| <= 4
    ensures forall k :: 0 <= k < SuggestionCount ==> (SuggestionAt(k) in Suggestions(text) <==> DigitAt(k) in text)
  {
    var ks := FoundUpTo(text, SuggestionCount);
    FoundUpToFacts(text, SuggestionCount);
    var s := Suggestions(text);
    forall k | 0 <= k < SuggestionCount ensures SuggestionAt(k) in s <==> DigitAt(k) in text {
      if SuggestionAt(k) in s {
        var i :| 0 <= i < |s| && s[i] == SuggestionAt(k);
        if ks[i] != k {
          SuggestionAtInjective(ks[i], k);
        }
      }
    }
  }

  /** No suggestion exactly when none of 0, 1, 5 and 8 occurs. */
  lemma SuggestionsEmptyIff(text: string)
    ensures Suggestions(text) == [] <==> '0' !in text && '1' !in text && '5' !in text && '8' !in text
  {
    var ks := FoundUpTo(text, SuggestionCount);
    if ks != [] {
      var k := ks[0];
      assert k < SuggestionCount && DigitAt(k) in text by {
        FoundUpToFacts(text, SuggestionCount);
        assert ks[0] in ks;
      }
    } else {
      assert forall k: nat :: k < SuggestionCount ==> DigitAt(k) !in text by {
        FoundUpToFacts(text, SuggestionCount);
      }
      assert DigitAt(0) !in text && DigitAt(1) !in text && DigitAt(2) !in text && DigitAt(3) !in text;
    }
  }

  /** The suggestions follow the order of the table. */
  lemma SuggestionsInTableOrder(text: string)
    ensures exists ks: seq<nat> ::
      (forall i :: 0 <= i < |ks| ==> ks[i] < SuggestionCount)
      && (forall i, j :: 0 <= i < j < |ks| ==> ks[i] < ks[j])
      && Suggestions(text) == Messages(ks)
  {
    FoundUpToFacts(text, SuggestionCount);
    var ks := FoundUpTo(text, SuggestionCount);
    assert Suggestions(text) == Messages(ks);
  }

  /** `_get_suggestions`. */
  method GetSuggestions(text: string) returns (suggestions: seq<string>)
    ensures suggestions == Suggestions(text)
  {
    suggestions := [];
    for k := 0 to SuggestionCount
      invariant suggestions == Messages(FoundUpTo(text, k))
    {
      if HasChar(text, DigitAt(k)) {
        suggestions := suggestions + [SuggestionAt(k)];
      }
    }
  }

  // ---------------------------------------------------------------------
  // _extract_medicines

  /** The candidate names: the dosage-pattern matches, then the stripped
      prescription-line matches. */
  function Candidates(matches: seq<string>, rxMatches: seq<string>): seq<string> {
    matches + seq(|rxMatches|, i requires 0 <= i < |rxMatches| => PyStrip(rxMatches[i]))
  }

  /** Every candidate stripped, in order. */
  function StripAll(candidates: seq<string>): (r: seq<string>)
    ensures |r| == |candidates|
    ensures forall i :: 0 <= i < |r| ==> r[i] == PyStrip(candidates[i])
  {
    seq(|candidates|, i requires 0 <= i < |candidates| => PyStrip(candidates[i]))
  }

  /** The texts longer than two characters, each at its first occurrence. */
  function LongDistinct(ts: seq<string>): seq<string> {
    if ts == [] then []
    else
      var before := LongDistinct(ts[..|ts| - 1]);
      var t := ts[|ts| - 1];
      if |t| > 2 && t !in before then before + [t] else before
  }

  /** The medicine names found among the candidates. */
  function Medicines(candidates: seq<string>): seq<string> {
    LongDistinct(StripAll(candidates))
  }

  /** Each text once, and exactly the texts longer than two characters. */
  lemma {:induction false} LongDistinctFacts(ts: seq<string>)
    ensures NoDuplicates(LongDistinct(ts))
    ensures forall x :: x in LongDistinct(ts) <==> x in ts && |x| > 2
  {
    if ts != [] {
      var init := ts[..|ts| - 1];
      LongDistinctFacts(init);
      assert ts == init + [ts[|ts| - 1]];
    }
  }

  /** The medicines are the stripped candidates longer than two
      characters, each once, and each already stripped. */
  lemma MedicinesFacts(candidates: seq<string>)
    ensures NoDuplicates(Medicines(candidates))
    ensures forall x :: x in Medicines(candidates) <==>
      (exists i :: 0 <= i < |candidates| && PyStrip(candidates[i]) == x) && |x| > 2
    ensures forall x :: x in Medicines(candidates) ==> |x| > 2 && PyStrip(x) == x
  {
    var ts := StripAll(candidates);
    var m := Medicines(candidates);
    assert NoDuplicates(m) && forall x :: x in m <==> x in ts && |x| > 2 by {
      LongDistinctFacts(ts);
    }
    forall x
      ensures x in m <==> (exists i :: 0 <= i < |candidates| && PyStrip(candidates[i]) == x) && |x| > 2
    {
      if x in ts {
        var i :| 0 <= i < |ts| && ts[i] == x;
        assert PyStrip(candidates[i]) == x;
      }
      if exists i :: 0 <= i < |candidates| && PyStrip(candidates[i]) == x {
        var i :| 0 <= i < |candidates| && PyStrip(candidates[i]) == x;
        assert ts[i] == x;
      }
    }
    forall x | x in m ensures PyStrip(x) == x {
      var i :| 0 <= i < |ts| && ts[i] == x;
      StripIdempotent(candidates[i], IsPySpace);
    }
  }

  /** `_extract_medicines`: the stripped candidates longer than two
      characters, each once.  The source goes through a set, whose order
      is unspecified; this keeps first occurrences. */
  method ExtractMedicines(matches: seq<string>, rxMatches: seq<string>) returns (medicines: seq<string>)
    ensures medicines == Medicines(Candidates(matches, rxMatches))
  {
    var candidates := matches;
    candidates := candidates + seq(|rxMatches|, i requires 0 <= i < |rxMatches| => PyStrip(rxMatches[i]));
    var stripped := seq(|candidates|, i requires 0 <= i < |candidates| => PyStrip(candidates[i]));
    assert stripped == StripAll(Candidates(matches, rxMatches));
    medicines := KeepLongDistinct(stripped);
  }

  /** The set step of `_extract_medicines`: the texts longer than two
      characters, each once. */
  method KeepLongDistinct(ts: seq<string>) returns (kept: seq<string>)
    ensures kept == LongDistinct(ts)
  {
    kept := [];
    var k := 0;
    while k < |ts|
      invariant 0 <= k <= |ts|
      invariant kept == LongDistinct(ts[..k])
    {
      var t := ts[k];
      if |t| > 2 && t !in kept {
        kept := kept + [t];
      }
      assert ts[..k + 1][..k] == ts[..k];
      k := k + 1;
    }
    assert ts[..k] == ts;
  }

  // ---------------------------------------------------------------------
  // extract_text and process_prescription

  /** What the recogniser did: it read some text (with the matches of the
      two medicine patterns in the cleaned text), or it raised an error. */
  datatype Recognition =
    | Read(rawText: string, medicineMatches: seq<string>, rxMatches: seq<string>)
    | Failed(message: string)

  /** The result dictionary; `None` marks a key that is not there. */
  datatype OcrResult = OcrResult(
    success: bool,
    error: Option<string>,
    rawText: string,
    cleanedText: string,
    medicines: seq<string>,
    editableText: Option<string>,
    suggestions: Option<seq<string>>)

  /** `extract_text`. */
  method ExtractText(run: Recognition) returns (r: OcrResult)
    ensures run.Failed? ==> r == OcrResult(false, Some(run.message), "", "", [], None, None)
    ensures run.Read? ==>
      r.success && r.error.None? && r.rawText == run.rawText
      && r.cleanedText == CleanText(run.rawText)
      && r.medicines == Medicines(Candidates(run.medicineMatches, run.rxMatches))
      && r.editableText.None? && r.suggestions.None?
  {
    match run
    case Failed(message) =>
      r := OcrResult(false, Some(message), "", "", [], None, None);
    case Read(rawText, medicineMatches, rxMatches) =>
      var cleaned := CleanText(rawText);
      var medicines := ExtractMedicines(medicineMatches, rxMatches);
      r := OcrResult(true, None, rawText, cleaned, medicines, None, None);
  }

  /** `process_prescription`: on success the editable text is the cleaned
      text and the suggestions are those of the cleaned text; on failure
      neither key is added. */
  method ProcessPrescription(run: Recognition) returns (r: OcrResult)
    ensures r.success <==> run.Read?
    ensures run.Failed? ==> r == OcrResult(false, Some(run.message), "", "", [], None, None)
    ensures run.Read? ==>
      r.error.None? && r.rawText == run.rawText
      && r.cleanedText == CleanText(run.rawText)
      && r.medicines == Medicines(Candidates(run.medicineMatches, run.rxMatches))
      && r.editableText == Some(r.cleanedText)
      && r.suggestions == Some(Suggestions(r.cleanedText))
  {
    r := ExtractText(run);
    if r.success {
      r := r.(editableText := Some(r.cleanedText));
      var suggestions := GetSuggestions(r.cleanedText);
      r := r.(suggestions := Some(suggestions));
    }
  }
}
