/**
 * How the fallback branch reads the raw `location` query: the coordinate pattern
 * `-?\d+(\.\d+)?,-?\d+(\.\d+)?` (searched anywhere in the string, the regular expression is not
 * anchored), JavaScript's `String.prototype.split(",")`, and the choice between the three
 * ways of resolving a location.
 */
module LocationQuery {
  import opened Wrappers

  predicate IsDigit(c: char) {
    '0' <= c <= '9'
  }

  // ---------------------------------------------------------------------------
  // Reference semantics of the regular expression
  // ---------------------------------------------------------------------------

  /** `s[lo..hi]` matches `\d+`. */
  ghost predicate DigitsIn(s: string, lo: int, hi: int) {
    0 <= lo < hi <= |s| && forall k :: lo <= k < hi ==> IsDigit(s[k])
  }

  /** `s[lo..hi]` matches `\d+(\.\d+)?`. */
  ghost predicate DecimalIn(s: string, lo: int, hi: int) {
    || DigitsIn(s, lo, hi)
    || exists d :: 0 <= lo < d < hi <= |s| && s[d] == '.' && DigitsIn(s, lo, d) && DigitsIn(s, d + 1, hi)
  }

  /** `s[lo..hi]` matches `-?\d+(\.\d+)?`. */
  ghost predicate SignedDecimalIn(s: string, lo: int, hi: int) {
    || DecimalIn(s, lo, hi)
    || (0 <= lo < |s| && s[lo] == '-' && DecimalIn(s, lo + 1, hi))
  }

  /** `s[lo..hi]` matches the whole of `-?\d+(\.\d+)?,-?\d+(\.\d+)?`. */
  ghost predicate MatchIn(s: string, lo: int, hi: int) {
    exists c :: 0 <= lo <= c < hi <= |s| && s[c] == ',' && SignedDecimalIn(s, lo, c) && SignedDecimalIn(s, c + 1, hi)
  }

  /** `regex.test(s)` for the unanchored pattern: some substring of `s` matches it. */
  ghost predicate RegexTest(s: string) {
    exists lo, hi :: 0 <= lo <= hi <= |s| && MatchIn(s, lo, hi)
  }

  // ---------------------------------------------------------------------------
  // The executable test
  // ---------------------------------------------------------------------------

  /** A digit at `i`, a comma after it, then a digit or a minus sign and a digit. */
  predicate CoordinateAt(s: string, i: int) {
    0 <= i && i + 2 < |s| && IsDigit(s[i]) && s[i + 1] == ','
    && (IsDigit(s[i + 2]) || (s[i + 2] == '-' && i + 3 < |s| && IsDigit(s[i + 3])))
  }

  /** The coordinate-pattern test the route applies to `location`. */
  predicate HasCoordinatePattern(s: string)
    ensures HasCoordinatePattern(s) ==> ',' in s && |s| >= 3
  {
    exists i :: 0 <= i < |s| && CoordinateAt(s, i)
  }

  /** A digit, a comma and a possibly negated digit side by side are a match of the pattern. */
  lemma CoordinateAtMatches(s: string, i: int)
    requires CoordinateAt(s, i)
    ensures RegexTest(s)
  {
    assert DigitsIn(s, i, i + 1);
    if IsDigit(s[i + 2]) {
      assert DigitsIn(s, i + 2, i + 3);
      assert MatchIn(s, i, i + 3);
    } else {
      assert DigitsIn(s, i + 3, i + 4);
      assert MatchIn(s, i, i + 4);
    }
  }

  /** A number that matches ends in a digit and starts with a digit or a minus sign and a digit. */
  lemma SignedDecimalEnds(s: string, lo: int, hi: int)
    requires SignedDecimalIn(s, lo, hi)
    ensures 0 <= lo < hi <= |s| && IsDigit(s[hi - 1])
    ensures IsDigit(s[lo]) || (lo + 1 < hi && s[lo] == '-' && IsDigit(s[lo + 1]))
  {
    if !DecimalIn(s, lo, hi) {
      assert DecimalIn(s, lo + 1, hi);
    }
  }

  /** The comma of a match has a digit before it and a possibly negated digit after it. */
  lemma CommaOfMatch(s: string, lo: int, c: int, hi: int)
    requires 0 <= lo <= c < hi <= |s| && s[c] == ','
    requires SignedDecimalIn(s, lo, c) && SignedDecimalIn(s, c + 1, hi)
    ensures CoordinateAt(s, c - 1)
  {
    SignedDecimalEnds(s, lo, c);
    SignedDecimalEnds(s, c + 1, hi);
  }

  /**
   * The local test is exactly the regular expression's `test`: a match anywhere in the string
   * exists if and only if a digit, a comma and a possibly negated digit stand side by side.
   */
  lemma CoordinatePatternIsRegexTest(s: string)
    ensures HasCoordinatePattern(s) <==> RegexTest(s)
  {
    if HasCoordinatePattern(s) {
      var i :| 0 <= i < |s| && CoordinateAt(s, i);
      CoordinateAtMatches(s, i);
    }
    if RegexTest(s) {
      var lo, hi :| 0 <= lo <= hi <= |s| && MatchIn(s, lo, hi);
      var c :| 0 <= lo <= c < hi <= |s| && s[c] == ',' && SignedDecimalIn(s, lo, c)
               && SignedDecimalIn(s, c + 1, hi);
      CommaOfMatch(s, lo, c, hi);
    }
  }

  // ---------------------------------------------------------------------------
  // String.prototype.split with a one-character separator
  // ---------------------------------------------------------------------------

  /** `s.split(sep)`: the fields between separators, always at least one. */
  function Split(s: string, sep: char): (fields: seq<string>)
    ensures |fields| > 0
    decreases |s|
  {
    if |s| == 0 then [""]
    else
      var rest := Split(s[1..], sep);
      if s[0] == sep then [""] + rest else [[s[0]] + rest[0]] + rest[1..]
  }

  /** `fields.join(sep)`, the inverse of `Split`. */
  function Join(fields: seq<string>, sep: char): string
    requires |fields| > 0
  {
    if |fields| == 1 then fields[0] else fields[0] + [sep] + Join(fields[1..], sep)
  }

  /** Splitting loses nothing: the fields joined back give the string, and none holds `sep`. */
  lemma {:induction false} JoinSplit(s: string, sep: char)
    ensures Join(Split(s, sep), sep) == s
    ensures forall k :: 0 <= k < |Split(s, sep)| ==> sep !in Split(s, sep)[k]
    decreases |s|
  {
    if |s| > 0 {
      var rest := Split(s[1..], sep);
      JoinSplit(s[1..], sep);
      if s[0] == sep {
        assert Split(s, sep)[1..] == rest;
      } else {
        var fields := Split(s, sep);
        assert fields[1..] == rest[1..];
        if |rest| > 1 {
          assert rest[1..][1..] == rest[2..];
          assert Join(rest, sep) == rest[0] + [sep] + Join(rest[1..], sep);
        }
        assert s == [s[0]] + s[1..];
      }
    }
  }

  lemma {:induction false} SplitPrefix(a: string, t: string, sep: char)
    requires sep !in a
    ensures Split(a + t, sep) == [a + Split(t, sep)[0]] + Split(t, sep)[1..]
    decreases |a|
  {
    if |a| > 0 {
      assert (a + t)[1..] == a[1..] + t;
      SplitPrefix(a[1..], t, sep);
      assert [a[0]] + (a[1..] + Split(t, sep)[0]) == a + Split(t, sep)[0];
    } else {
      var fields := Split(t, sep);
      assert a + t == t && a + fields[0] == fields[0];
      assert [fields[0]] + fields[1..] == fields;
    }
  }

  /** Joining separator-free fields and splitting again gives the fields back. */
  lemma {:induction false} SplitJoin(fields: seq<string>, sep: char)
    requires |fields| > 0
    requires forall k :: 0 <= k < |fields| ==> sep !in fields[k]
    ensures Split(Join(fields, sep), sep) == fields
    decreases |fields|
  {
    if |fields| == 1 {
      SplitPrefix(fields[0], "", sep);
      assert fields[0] + "" == fields[0];
    } else {
      var tail := Join(fields[1..], sep);
      SplitJoin(fields[1..], sep);
      SplitPrefix(fields[0], [sep] + tail, sep);
      assert fields[0] + [sep] + tail == fields[0] + ([sep] + tail);
      assert ([sep] + tail)[1..] == tail;
      assert Split([sep] + tail, sep) == [""] + fields[1..];
      assert fields[0] + "" == fields[0];
    }
  }

  /** A string that contains the separator splits into at least two fields. */
  lemma SplitAtSeparator(s: string, sep: char)
    requires sep in s
    ensures |Split(s, sep)| >= 2
  {
  }

  // ---------------------------------------------------------------------------
  // Choosing how to resolve the location
  // ---------------------------------------------------------------------------

  /** The three mutually exclusive ways the fallback branch resolves a location. */
  datatype Path = Coordinates | Geocoding | IpLookup

  /**
   * `location && regex.test(location)`, else `location` (a non-empty string is truthy), else
   * the IP lookup. An absent location and the empty string both take the IP path.
   */
  function Classify(location: Option<string>): (path: Path)
    ensures path == Coordinates ==> location.Some? && ',' in location.value
    ensures path == IpLookup <==> location.None? || location.value == ""
  {
    if location.Some? && location.value != "" && HasCoordinatePattern(location.value) then
      Coordinates
    else if location.Some? && location.value != "" then
      Geocoding
    else
      IpLookup
  }

  /** The coordinate path is taken exactly when the regular expression finds a match. */
  lemma ClassifyFollowsRegex(location: Option<string>)
    ensures Classify(location) == Coordinates <==> location.Some? && RegexTest(location.value)
    ensures Classify(location) == Geocoding <==>
              location.Some? && location.value != "" && !RegexTest(location.value)
  {
    if location.Some? {
      CoordinatePatternIsRegexTest(location.value);
    }
  }

  /** The coordinate path always finds two comma-separated fields to read the numbers from. */
  lemma CoordinateFields(s: string)
    requires Classify(Some(s)) == Coordinates
    ensures |Split(s, ',')| >= 2
  {
    SplitAtSeparator(s, ',');
  }

  /** Because the pattern is not anchored, text around a coordinate pair still selects the path. */
  lemma UnanchoredMatch()
    ensures Classify(Some("Paris 1,2")) == Coordinates
    ensures Split("Paris 1,2", ',') == ["Paris 1", "2"]
  {
    assert CoordinateAt("Paris 1,2", 6);
    assert Join(["Paris 1", "2"], ',') == "Paris 1,2";
    assert ',' !in "Paris 1" && ',' !in "2";
    SplitJoin(["Paris 1", "2"], ',');
  }

  /** The scenario "40.0,-75.0": coordinate path, fields "40.0" and "-75.0". */
  lemma CoordinateScenario()
    ensures Classify(Some("40.0,-75.0")) == Coordinates
    ensures Split("40.0,-75.0", ',') == ["40.0", "-75.0"]
  {
    assert CoordinateAt("40.0,-75.0", 3);
    assert Join(["40.0", "-75.0"], ',') == "40.0,-75.0";
    assert ',' !in "40.0" && ',' !in "-75.0";
    SplitJoin(["40.0", "-75.0"], ',');
  }
}
