/** String helpers shared by the server and the client models: character
    classes, ASCII case mapping, whitespace stripping, prefix and substring
    tests.  Python's and JavaScript's whitespace sets differ, so both are
    given and `Strip` takes the set as a parameter. */
module Text {

  predicate IsUpper(c: char) { 'A' <= c <= 'Z' }
  predicate IsLower(c: char) { 'a' <= c <= 'z' }
  predicate IsAsciiLetter(c: char) { IsUpper(c) || IsLower(c) }
  predicate IsDigit(c: char) { '0' <= c <= '9' }

  /** Python's `str.isspace`, which is also what `\s` and `str.strip()` use. */
  predicate IsPySpace(c: char) {
    c == ' ' || ('\t' <= c <= '\r') || ('\U{1C}' <= c <= '\U{1F}')
    || c == '\U{85}' || c == '\U{A0}' || c == '\U{1680}'
    || ('\U{2000}' <= c <= '\U{200A}') || c == '\U{2028}' || c == '\U{2029}'
    || c == '\U{202F}' || c == '\U{205F}' || c == '\U{3000}'
  }

  /** JavaScript's `String.prototype.trim` set (white space and line terminators). */
  predicate IsJsSpace(c: char) {
    c == ' ' || ('\t' <= c <= '\r') || c == '\U{A0}' || c == '\U{1680}'
    || ('\U{2000}' <= c <= '\U{200A}') || c == '\U{2028}' || c == '\U{2029}'
    || c == '\U{202F}' || c == '\U{205F}' || c == '\U{3000}' || c == '\U{FEFF}'
  }

  /** Python's `\w` restricted to ASCII. */
  predicate IsWordChar(c: char) { IsAsciiLetter(c) || IsDigit(c) || c == '_' }

  function LowerChar(c: char): char {
    if IsUpper(c) then (c as int - 'A' as int + 'a' as int) as char else c
  }

  function UpperChar(c: char): char {
    if IsLower(c) then (c as int - 'a' as int + 'A' as int) as char else c
  }

  function Lower(s: string): (r: string)
    ensures |r| == |s|
    ensures forall i :: 0 <= i < |s| ==> r[i] == LowerChar(s[i])
  {
    seq(|s|, i requires 0 <= i < |s| => LowerChar(s[i]))
  }

  predicate IsLowerCase(s: string) {
    forall i :: 0 <= i < |s| ==> !IsUpper(s[i])
  }

  lemma LowerIsLowerCase(s: string)
    ensures IsLowerCase(Lower(s))
    ensures Lower(Lower(s)) == Lower(s)
  {
  }

  /** Drops the leading characters of `s` that satisfy `ws`. */
  function StripStart(s: string, ws: char -> bool): (r: string)
    ensures |r| <= |s| && r == s[|s| - |r|..]
    ensures r == [] || !ws(r[0])
    ensures forall i :: 0 <= i < |s| - |r| ==> ws(s[i])
  {
    if s == [] || !ws(s[0]) then s else StripStart(s[1..], ws)
  }

  /** Drops the trailing characters of `s` that satisfy `ws`. */
  function StripEnd(s: string, ws: char -> bool): (r: string)
    ensures |r| <= |s| && r == s[..|r|]
    ensures r == [] || !ws(r[|r| - 1])
    ensures forall i :: |r| <= i < |s| ==> ws(s[i])
  {
    if s == [] || !ws(s[|s| - 1]) then s else StripEnd(s[..|s| - 1], ws)
  }

  /** `str.strip()` / `String.prototype.trim()` for the whitespace set `ws`:
      the result is the slice of `s` between its leading and trailing runs
      of whitespace, and it neither starts nor ends with whitespace. */
  function Strip(s: string, ws: char -> bool): (r: string)
    ensures exists lo :: StrippedAt(s, ws, lo, r)
    ensures r == [] || (!ws(r[0]) && !ws(r[|r| - 1]))
  {
    var t := StripStart(s, ws);
    var r := StripEnd(t, ws);
    assert r == s[|s| - |t|..][..|r|];
    assert StrippedAt(s, ws, |s| - |t|, r);
    r
  }

  /** `r` is the slice of `s` starting at `lo`, and everything of `s`
      outside that slice is whitespace. */
  predicate StrippedAt(s: string, ws: char -> bool, lo: int, r: string) {
    0 <= lo <= |s| - |r| && r == s[lo..lo + |r|]
    && (forall i :: 0 <= i < lo ==> ws(s[i]))
    && (forall i :: lo + |r| <= i < |s| ==> ws(s[i]))
  }

  /** Stripping twice strips nothing more. */
  lemma StripIdempotent(s: string, ws: char -> bool)
    ensures Strip(Strip(s, ws), ws) == Strip(s, ws)
  {
    StripKeeps(Strip(s, ws), ws);
  }

  /** A string that neither starts nor ends with whitespace is its own strip. */
  lemma StripKeeps(s: string, ws: char -> bool)
    requires s == [] || (!ws(s[0]) && !ws(s[|s| - 1]))
    ensures Strip(s, ws) == s
  {
    assert StripStart(s, ws) == s;
    assert StripEnd(s, ws) == s;
  }

  /** A non-empty run of decimal digits. */
  predicate IsDigits(s: string) {
    |s| > 0 && forall i :: 0 <= i < |s| ==> IsDigit(s[i])
  }

  /** `int(s)` for a run of decimal digits. */
  function DigitsValue(s: string): nat
    requires forall i :: 0 <= i < |s| ==> IsDigit(s[i])
  {
    if s == [] then 0
    else
      var last := s[|s| - 1];
      assert IsDigit(last);
      DigitsValue(s[..|s| - 1]) * 10 + (last as int - '0' as int)
  }

  /** `int` reads the digits as a decimal numeral: appending a digit
      multiplies by ten and adds the digit, and one digit is its value. */
  lemma {:induction false} DigitsValueAppend(s: string, d: char)
    requires forall i :: 0 <= i < |s| ==> IsDigit(s[i])
    requires IsDigit(d)
    ensures DigitsValue(s + [d]) == 10 * DigitsValue(s) + (d as int - '0' as int)
    ensures DigitsValue([d]) == d as int - '0' as int
  {
    assert (s + [d])[..|s + [d]| - 1] == s;
    assert [d][..0] == [];
  }

  function PyStrip(s: string): string { Strip(s, IsPySpace) }
  function JsTrim(s: string): string { Strip(s, IsJsSpace) }

  /** A string made only of whitespace strips to the empty string, and
      anything else does not. */
  lemma {:induction false} StripEmptyIff(s: string, ws: char -> bool)
    ensures Strip(s, ws) == [] <==> forall i :: 0 <= i < |s| ==> ws(s[i])
  {
    var r := Strip(s, ws);
    if r != [] {
      var lo :| StrippedAt(s, ws, lo, r);
      assert s[lo] == r[0] && !ws(s[lo]);
    }
  }

  predicate StartsWith(s: string, prefix: string) {
    |prefix| <= |s| && s[..|prefix|] == prefix
  }

  predicate OccursAt(s: string, pat: string, i: int) {
    0 <= i && i + |pat| <= |s| && s[i..i + |pat|] == pat
  }

  /** Python's `pat in s` / JavaScript's `s.includes(pat)`. */
  function Contains(s: string, pat: string): (b: bool)
    ensures b <==> exists i :: OccursAt(s, pat, i)
  {
    ContainsFrom(s, pat, 0)
  }

  function ContainsFrom(s: string, pat: string, from: nat): (b: bool)
    ensures b <==> exists i :: from <= i && OccursAt(s, pat, i)
    decreases |s| - from
  {
    if from + |pat| > |s| then
      assert forall i :: from <= i ==> !OccursAt(s, pat, i);
      false
    else if s[from..from + |pat|] == pat then
      assert OccursAt(s, pat, from);
      true
    else ContainsFrom(s, pat, from + 1)
  }

  /** Membership of a character, as in Python's `digit in text`. */
  function HasChar(s: string, c: char): (b: bool)
    ensures b <==> c in s
  {
    if s == [] then false else s[0] == c || HasChar(s[1..], c)
  }

  /** `sep.join(parts)`. */
  function Join(parts: seq<string>, sep: string): string {
    if |parts| == 0 then ""
    else if |parts| == 1 then parts[0]
    else Join(parts[..|parts| - 1], sep) + sep + parts[|parts| - 1]
  }

  /** A property of characters that holds throughout the parts and the
      separator holds throughout the joined string. */
  lemma {:induction false} JoinKeeps(parts: seq<string>, sep: string, p: char -> bool)
    requires forall k, i :: 0 <= k < |parts| && 0 <= i < |parts[k]| ==> p(parts[k][i])
    requires forall i :: 0 <= i < |sep| ==> p(sep[i])
    ensures forall i :: 0 <= i < |Join(parts, sep)| ==> p(Join(parts, sep)[i])
  {
    if |parts| > 1 {
      var init := parts[..|parts| - 1];
      JoinKeeps(init, sep, p);
      var last := parts[|parts| - 1];
      var a := Join(init, sep);
      forall i | 0 <= i < |a + sep + last| ensures p((a + sep + last)[i]) {
        if i >= |a + sep| {
          assert (a + sep + last)[i] == last[i - |a + sep|];
        } else if i >= |a| {
          assert (a + sep + last)[i] == sep[i - |a|];
        }
      }
    }
  }

  /** The first and last characters of a join of non-empty parts are the
      first character of the first part and the last of the last part. */
  lemma {:induction false} JoinEnds(parts: seq<string>, sep: string)
    requires |parts| > 0 && forall k :: 0 <= k < |parts| ==> parts[k] != []
    ensures Join(parts, sep) != []
    ensures Join(parts, sep)[0] == parts[0][0]
    ensures Join(parts, sep)[|Join(parts, sep)| - 1] == parts[|parts| - 1][|parts[|parts| - 1]| - 1]
  {
    if |parts| > 1 {
      var init := parts[..|parts| - 1];
      JoinEnds(init, sep);
      assert init[0] == parts[0];
    }
  }

  /** `s.split(c)` for a one-character separator: the pieces between the
      occurrences of `c`; there is always one more piece than occurrences. */
  function Split(s: string, c: char): (r: seq<string>)
    ensures |r| >= 1
    ensures forall k :: 0 <= k < |r| ==> c !in r[k]
    ensures forall k, i :: 0 <= k < |r| && 0 <= i < |r[k]| ==> r[k][i] in s
  {
    if s == [] then [""]
    else
      var rest := Split(s[1..], c);
      if s[0] == c then [""] + rest
      else [[s[0]] + rest[0]] + rest[1..]
  }

  /** Joining a part in front of at least one more adds it and one separator. */
  lemma {:induction false} JoinCons(p: string, parts: seq<string>, sep: string)
    requires |parts| >= 1
    ensures Join([p] + parts, sep) == p + sep + Join(parts, sep)
  {
    var q := [p] + parts;
    var last := parts[|parts| - 1];
    assert q[|q| - 1] == last;
    if |parts| > 1 {
      var init := parts[..|parts| - 1];
      assert q[..|q| - 1] == [p] + init;
      assert Join(q, sep) == Join([p] + init, sep) + sep + last;
      JoinCons(p, init, sep);
      assert Join(parts, sep) == Join(init, sep) + sep + last;
    } else {
      assert q[..|q| - 1] == [p];
      assert Join(q, sep) == Join([p], sep) + sep + last;
    }
  }

  /** Splitting at `c` and joining with `c` gives the string back. */
  lemma {:induction false} SplitJoin(s: string, c: char)
    ensures Join(Split(s, c), [c]) == s
  {
    if s != [] {
      SplitJoin(s[1..], c);
      var rest := Split(s[1..], c);
      if s[0] == c {
        JoinCons("", rest, [c]);
        assert s == [c] + s[1..];
      } else {
        SplitJoinLetter(s, c);
      }
    }
  }

  /** The step of `SplitJoin` for a first character other than `c`: it
      joins the first piece of the rest. */
  lemma SplitJoinLetter(s: string, c: char)
    requires s != [] && s[0] != c && Join(Split(s[1..], c), [c]) == s[1..]
    ensures Join(Split(s, c), [c]) == s
  {
    var rest := Split(s[1..], c);
    var more := rest[1..];
    assert Split(s, c) == [[s[0]] + rest[0]] + more;
    if more == [] {
      assert s == [s[0]] + rest[0];
    } else {
      JoinPrepend(s[0], rest[0], more, c);
      assert rest == [rest[0]] + more;
    }
  }

  lemma JoinPrepend(x: char, p: string, more: seq<string>, c: char)
    requires more != []
    ensures Join([[x] + p] + more, [c]) == [x] + Join([p] + more, [c])
  {
    JoinCons([x] + p, more, [c]);
    JoinCons(p, more, [c]);
  }

  /** The first character and the rest of a concatenation whose front
      part is not empty. */
  lemma TailOfAppend(a: string, b: string)
    requires a != []
    ensures (a + b)[0] == a[0] && (a + b)[1..] == a[1..] + b
  {
  }

  /** Putting a character in front of a concatenation. */
  lemma ConsAppend(c: char, x: string, y: string)
    ensures [c] + (x + y) == ([c] + x) + y
  {
  }

  /** No string occurs twice. */
  predicate NoDuplicates(xs: seq<string>) {
    forall a, b :: 0 <= a < b < |xs| ==> xs[a] != xs[b]
  }
}
