/**
 * The severity vocabulary of the filter processor's log matching
 * (processor/filterprocessor/config.go): the static table from severity
 * strings to log severity numbers, and its case-insensitive validation and
 * lookup.
 */
module Severity {

  /**
   * Severity numbers of the log data model. `0` is SeverityNumberUnspecified,
   * the zero value a Go map lookup yields for a missing key; `1`..`24` are
   * SeverityNumberTrace, SeverityNumberTrace2, ..., SeverityNumberFatal4.
   */
  type SeverityNumber = int

  const Unspecified: SeverityNumber := 0

  /** The decimal half of the table: "1".."24". */
  const NumericSeverities: map<string, SeverityNumber> := map[
    "1" := 1, "2" := 2, "3" := 3, "4" := 4,
    "5" := 5, "6" := 6, "7" := 7, "8" := 8,
    "9" := 9, "10" := 10, "11" := 11, "12" := 12,
    "13" := 13, "14" := 14, "15" := 15, "16" := 16,
    "17" := 17, "18" := 18, "19" := 19, "20" := 20,
    "21" := 21, "22" := 22, "23" := 23, "24" := 24
  ]

  /** The named half of the table: TRACE..FATAL4. */
  const NamedSeverities: map<string, SeverityNumber> := map[
    "TRACE" := 1, "TRACE2" := 2, "TRACE3" := 3, "TRACE4" := 4,
    "DEBUG" := 5, "DEBUG2" := 6, "DEBUG3" := 7, "DEBUG4" := 8,
    "INFO" := 9, "INFO2" := 10, "INFO3" := 11, "INFO4" := 12,
    "WARN" := 13, "WARN2" := 14, "WARN3" := 15, "WARN4" := 16,
    "ERROR" := 17, "ERROR2" := 18, "ERROR3" := 19, "ERROR4" := 20,
    "FATAL" := 21, "FATAL2" := 22, "FATAL3" := 23, "FATAL4" := 24
  ]

  /**
   * The package-level `severityToNumber` table. The source writes it as one
   * 48-entry literal; it is the union of the two halves above, whose key sets
   * are disjoint.
   */
  const SeverityToNumber: map<string, SeverityNumber> := NumericSeverities + NamedSeverities

  /** The short level names of the log data model, in ascending severity. */
  const LevelNames: seq<string> := [
    "TRACE", "TRACE2", "TRACE3", "TRACE4",
    "DEBUG", "DEBUG2", "DEBUG3", "DEBUG4",
    "INFO", "INFO2", "INFO3", "INFO4",
    "WARN", "WARN2", "WARN3", "WARN4",
    "ERROR", "ERROR2", "ERROR3", "ERROR4",
    "FATAL", "FATAL2", "FATAL3", "FATAL4"
  ]

  /** Decimal rendering of a natural number, without leading zeros. */
  function DecimalString(n: nat): (s: string)
    ensures |s| > 0
    ensures forall i :: 0 <= i < |s| ==> '0' <= s[i] <= '9'
  {
    if n < 10 then ['0' + n as char] else DecimalString(n / 10) + ['0' + (n % 10) as char]
  }

  // ---------------------------------------------------------------------
  // ASCII upper-casing, standing for strings.ToUpper
  // ---------------------------------------------------------------------

  function UpperChar(c: char): char {
    if 'a' <= c <= 'z' then (c as int - 'a' as int + 'A' as int) as char else c
  }

  function ToUpper(s: string): (u: string)
    ensures |u| == |s|
    ensures forall i :: 0 <= i < |s| ==> u[i] == UpperChar(s[i])
  {
    seq(|s|, i requires 0 <= i < |s| => UpperChar(s[i]))
  }

  /** A string with no lower-case ASCII letter. */
  predicate IsUpper(s: string) {
    forall i :: 0 <= i < |s| ==> !('a' <= s[i] <= 'z')
  }

  /** Case-insensitive ASCII equality, an independent reading of "the same key ignoring case". */
  predicate EqualFold(s: string, t: string) {
    |s| == |t| && forall i :: 0 <= i < |s| ==> UpperChar(s[i]) == UpperChar(t[i])
  }

  lemma UpperFixesUpper(s: string)
    ensures IsUpper(ToUpper(s))
    ensures IsUpper(s) <==> ToUpper(s) == s
  {
    if ToUpper(s) == s {
      assert forall i :: 0 <= i < |s| ==> s[i] == UpperChar(s[i]);
    }
  }

  lemma EqualFoldIsSameUpper(s: string, t: string)
    ensures EqualFold(s, t) <==> ToUpper(s) == ToUpper(t)
  {
    if ToUpper(s) == ToUpper(t) {
      assert forall i :: 0 <= i < |s| ==> UpperChar(s[i]) == ToUpper(t)[i];
    }
  }

  // ---------------------------------------------------------------------
  // Facts about the table
  // ---------------------------------------------------------------------

  /** The first letters of the level names. */
  const LevelInitials: string := "TDIWEF"

  lemma NumericShape(k: string)
    requires k in NumericSeverities
    ensures |k| > 0 && IsUpper(k) && '0' <= k[0] <= '9'
    ensures 1 <= NumericSeverities[k] <= 24
  {
  }

  lemma NamedShape(k: string)
    requires k in NamedSeverities
    ensures |k| > 0 && IsUpper(k) && k[0] in LevelInitials
    ensures 1 <= NamedSeverities[k] <= 24
  {
  }

  /** Every key of the table is already upper case, and every value is a real severity. */
  lemma TableShape(k: string)
    requires k in SeverityToNumber
    ensures |k| > 0 && IsUpper(k)
    ensures '0' <= k[0] <= '9' || k[0] in LevelInitials
    ensures 1 <= SeverityToNumber[k] <= 24
  {
    if k in NamedSeverities {
      NamedShape(k);
    } else {
      NumericShape(k);
    }
  }

  lemma DecimalKeysFrom1(k: int)
    requires 1 <= k <= 6
    ensures DecimalString(k) in NumericSeverities
    ensures NumericSeverities[DecimalString(k)] == k
  {
    if k == 1 {
      assert DecimalString(1) == "1";
    } else if k == 2 {
      assert DecimalString(2) == "2";
    } else if k == 3 {
      assert DecimalString(3) == "3";
    } else if k == 4 {
      assert DecimalString(4) == "4";
    } else if k == 5 {
      assert DecimalString(5) == "5";
    } else if k == 6 {
      assert DecimalString(6) == "6";
    }
  }

  lemma DecimalKeysFrom7(k: int)
    requires 7 <= k <= 12
    ensures DecimalString(k) in NumericSeverities
    ensures NumericSeverities[DecimalString(k)] == k
  {
    if k == 7 {
      assert DecimalString(7) == "7";
    } else if k == 8 {
      assert DecimalString(8) == "8";
    } else if k == 9 {
      assert DecimalString(9) == "9";
    } else if k == 10 {
      assert DecimalString(10) == "10";
    } else if k == 11 {
      assert DecimalString(11) == "11";
    } else if k == 12 {
      assert DecimalString(12) == "12";
    }
  }

  lemma DecimalKeysFrom13(k: int)
    requires 13 <= k <= 18
    ensures DecimalString(k) in NumericSeverities
    ensures NumericSeverities[DecimalString(k)] == k
  {
    if k == 13 {
      assert DecimalString(13) == "13";
    } else if k == 14 {
      assert DecimalString(14) == "14";
    } else if k == 15 {
      assert DecimalString(15) == "15";
    } else if k == 16 {
      assert DecimalString(16) == "16";
    } else if k == 17 {
      assert DecimalString(17) == "17";
    } else if k == 18 {
      assert DecimalString(18) == "18";
    }
  }

  lemma DecimalKeysFrom19(k: int)
    requires 19 <= k <= 24
    ensures DecimalString(k) in NumericSeverities
    ensures NumericSeverities[DecimalString(k)] == k
  {
    if k == 19 {
      assert DecimalString(19) == "19";
    } else if k == 20 {
      assert DecimalString(20) == "20";
    } else if k == 21 {
      assert DecimalString(21) == "21";
    } else if k == 22 {
      assert DecimalString(22) == "22";
    } else if k == 23 {
      assert DecimalString(23) == "23";
    } else if k == 24 {
      assert DecimalString(24) == "24";
    }
  }

  /** The decimal key "k" is in the table's numeric half, mapped to k. */
  lemma DecimalKeyIsLevel(k: int)
    requires 1 <= k <= 24
    ensures DecimalString(k) in NumericSeverities
    ensures NumericSeverities[DecimalString(k)] == k
  {
    if k <= 6 {
      DecimalKeysFrom1(k);
    } else if k <= 12 {
      DecimalKeysFrom7(k);
    } else if k <= 18 {
      DecimalKeysFrom13(k);
    } else {
      DecimalKeysFrom19(k);
    }
  }

  /** The k-th level name is in the table's named half, mapped to k. */
  lemma NamedKeyIsLevel(k: int)
    requires 1 <= k <= 24
    ensures LevelNames[k - 1] in NamedSeverities
    ensures NamedSeverities[LevelNames[k - 1]] == k
  {
  }

  /** Every key of the numeric half is the decimal rendering of its value. */
  lemma NumericKeysAreDecimals(key: string)
    requires key in NumericSeverities
    ensures DecimalString(NumericSeverities[key]) == key
  {
  }

  /** Every key of the named half is the level name of its value. */
  lemma NamedKeysAreLevelNames(key: string)
    requires key in NamedSeverities
    ensures 1 <= NamedSeverities[key] <= 24 && LevelNames[NamedSeverities[key] - 1] == key
  {
  }

  /**
   * For every level k in 1..24 the decimal key "k" and the k-th level name
   * are both keys of the table, and both map to severity number k.
   */
  lemma NumericAndNamedKeysAgree(k: int)
    requires 1 <= k <= 24
    ensures DecimalString(k) in SeverityToNumber && LevelNames[k - 1] in SeverityToNumber
    ensures SeverityToNumber[DecimalString(k)] == k
    ensures SeverityToNumber[LevelNames[k - 1]] == k
  {
    DecimalKeyIsLevel(k);
    NamedKeyIsLevel(k);
    var d := DecimalString(k);
    if d in NamedSeverities {
      NamedShape(d);
    }
  }

  /**
   * The table has no other keys: each key is the decimal rendering or the
   * level name of the severity number it maps to.
   */
  lemma TableKeysAreLevelSpellings(key: string)
    requires key in SeverityToNumber
    ensures 1 <= SeverityToNumber[key] <= 24
    ensures key == DecimalString(SeverityToNumber[key]) || key == LevelNames[SeverityToNumber[key] - 1]
  {
    if key in NamedSeverities {
      NamedKeysAreLevelNames(key);
    } else {
      NumericKeysAreDecimals(key);
      NumericShape(key);
    }
  }

  // ---------------------------------------------------------------------
  // logSeverity.validate and logSeverity.severityNumber
  // ---------------------------------------------------------------------

  /** logSeverity.validate returns nil: the field is unset, or its upper-cased form is a key. */
  predicate ValidSeverity(l: string) {
    l == "" || ToUpper(l) in SeverityToNumber
  }

  /** logSeverity.severityNumber: the table entry of the upper-cased form, or the zero value. */
  function SeverityNumberOf(l: string): (n: SeverityNumber)
    ensures 0 <= n <= 24
    ensures n != Unspecified <==> l != "" && ValidSeverity(l)
  {
    var caps := ToUpper(l);
    if caps in SeverityToNumber then
      TableShape(caps);
      SeverityToNumber[caps]
    else
      Unspecified
  }

  /**
   * validate accepts exactly the unset severity and the strings that equal
   * some table key when case is ignored.
   */
  lemma ValidSeverityIffFoldsToKey(l: string)
    ensures ValidSeverity(l) <==> l == "" || exists k :: k in SeverityToNumber && EqualFold(l, k)
  {
    if l != "" && ToUpper(l) in SeverityToNumber {
      var k := ToUpper(l);
      UpperFixesUpper(l);
      TableShape(k);
      UpperFixesUpper(k);
      EqualFoldIsSameUpper(l, k);
    }
    if l != "" && exists k :: k in SeverityToNumber && EqualFold(l, k) {
      var k :| k in SeverityToNumber && EqualFold(l, k);
      EqualFoldIsSameUpper(l, k);
      TableShape(k);
      UpperFixesUpper(k);
    }
  }

  /** Validation and lookup only see the string up to case. */
  lemma SeverityCaseInsensitive(a: string, b: string)
    requires EqualFold(a, b)
    ensures ValidSeverity(a) == ValidSeverity(b)
    ensures SeverityNumberOf(a) == SeverityNumberOf(b)
  {
    EqualFoldIsSameUpper(a, b);
  }

  /** Any spelling of the k-th level name, in any case, or the decimal k, yields severity k. */
  lemma LevelSpellingsYieldLevel(k: int, l: string)
    requires 1 <= k <= 24
    requires EqualFold(l, LevelNames[k - 1]) || l == DecimalString(k)
    ensures ValidSeverity(l)
    ensures SeverityNumberOf(l) == k
  {
    NumericAndNamedKeysAgree(k);
    var key := if l == DecimalString(k) then DecimalString(k) else LevelNames[k - 1];
    TableShape(key);
    UpperFixesUpper(key);
    if l == DecimalString(k) {
      UpperFixesUpper(l);
      assert IsUpper(l);
    } else {
      EqualFoldIsSameUpper(l, key);
    }
  }

  /** `l` spells level `k`: the k-th level name in any case, or the decimal k. */
  predicate IsLevelSpelling(l: string, k: int) {
    1 <= k <= 24 && (EqualFold(l, LevelNames[k - 1]) || l == DecimalString(k))
  }

  /**
   * validate accepts a non-empty severity exactly when it spells one of the
   * 24 levels, and severityNumber then yields that level.
   */
  lemma ValidSeverityIffLevelSpelling(l: string)
    ensures l != "" && ValidSeverity(l) <==> exists k :: IsLevelSpelling(l, k)
    ensures l != "" && ValidSeverity(l) ==> IsLevelSpelling(l, SeverityNumberOf(l))
  {
    if exists k :: IsLevelSpelling(l, k) {
      var k :| IsLevelSpelling(l, k);
      NamedKeyIsLevel(k);
      NamedShape(LevelNames[k - 1]);
      LevelSpellingsYieldLevel(k, l);
    }
    if l != "" && ValidSeverity(l) {
      var caps := ToUpper(l);
      TableKeysAreLevelSpellings(caps);
      var k := SeverityToNumber[caps];
      if caps == LevelNames[k - 1] {
        TableShape(caps);
        UpperFixesUpper(caps);
        EqualFoldIsSameUpper(l, caps);
      } else {
        assert forall i :: 0 <= i < |l| ==> l[i] == caps[i];
      }
      assert IsLevelSpelling(l, k);
    }
  }

  /** A severity whose first character is neither a digit nor the initial of a level name is rejected. */
  lemma UnknownInitialIsInvalid(l: string)
    requires l != ""
    requires !('0' <= UpperChar(l[0]) <= '9') && UpperChar(l[0]) !in LevelInitials
    ensures !ValidSeverity(l)
    ensures SeverityNumberOf(l) == Unspecified
  {
    if ToUpper(l) in SeverityToNumber {
      TableShape(ToUpper(l));
    }
  }

  /** "info" and "INFO" name the same severity, SeverityNumberInfo. */
  lemma InfoIsCaseInsensitive()
    ensures ValidSeverity("info") && ValidSeverity("INFO")
    ensures SeverityNumberOf("info") == SeverityNumberOf("INFO") == 9
  {
    assert LevelNames[8] == "INFO";
    assert ToUpper("info") == "INFO";
    EqualFoldIsSameUpper("info", "INFO");
    LevelSpellingsYieldLevel(9, "INFO");
    LevelSpellingsYieldLevel(9, "info");
  }
}
