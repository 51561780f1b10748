/** The data-preparation helpers of the training script: finding the units
    and bill columns by keyword, and stripping stray characters from the
    cells before they are parsed as numbers. */
module Training {
  import opened Wrappers

  // ---------------------------------------------------------------------
  // Case folding and substring search (ASCII)
  // ---------------------------------------------------------------------

  /** `str.lower` on one character, for ASCII letters. */
  function LowerChar(c: char): (lower: char)
  {
    if 'A' <= c <= 'Z' then (c as int + 32) as char else c
  }

  /** `str.lower`, character by character. */
  function Lower(s: string): (r: string)
    ensures |r| == |s|
    ensures forall i :: 0 <= i < |s| ==> r[i] == LowerChar(s[i])
  {
    if s == [] then [] else [LowerChar(s[0])] + Lower(s[1..])
  }

  /** Lower-casing twice is lower-casing once. */
  lemma LowerIdempotent(s: string)
    ensures Lower(Lower(s)) == Lower(s)
  {
    assert forall i :: 0 <= i < |s| ==> LowerChar(LowerChar(s[i])) == LowerChar(s[i]);
  }

  /** sub occurs in s starting at index i. */
  predicate OccursAt(s: string, sub: string, i: nat)
  {
    i + |sub| <= |s| && s[i..i + |sub|] == sub
  }

  /** Dropping the first character shifts every occurrence one to the left. */
  lemma OccursAtTail(s: string, sub: string, i: nat)
    requires |s| > 0
    ensures OccursAt(s[1..], sub, i) <==> OccursAt(s, sub, i + 1)
  {
    if i + 1 + |sub| <= |s| {
      assert s[1..][i..i + |sub|] == s[i + 1..i + 1 + |sub|];
    }
  }

  /** Python's `sub in s`: sub occurs somewhere in s (the empty string is in
      every string). */
  function Contains(s: string, sub: string): (b: bool)
    ensures b <==> exists i: nat :: OccursAt(s, sub, i)
    decreases |s|
  {
    if |sub| > |s| then false
    else if s[..|sub|] == sub then assert OccursAt(s, sub, 0); true
    else
      var b := Contains(s[1..], sub);
      assert b ==> exists i: nat :: OccursAt(s, sub, i) by {
        if b {
          var i: nat :| OccursAt(s[1..], sub, i);
          OccursAtTail(s, sub, i);
        }
      }
      assert (exists i: nat :: OccursAt(s, sub, i)) ==> b by {
        if exists i: nat :: OccursAt(s, sub, i) {
          var i: nat :| OccursAt(s, sub, i);
          assert i != 0;
          OccursAtTail(s, sub, i - 1);
        }
      }
      b
  }

  // ---------------------------------------------------------------------
  // find_column (train_model.py, lines 11-18)
  // ---------------------------------------------------------------------

  /** A column matches when its lower-cased name contains some keyword; the
      keywords themselves are used as given. */
  predicate Matches(column: string, keywords: seq<string>)
  {
    exists kw :: kw in keywords && Contains(Lower(column), kw)
  }

  /** The first matching column, in column order. */
  function FirstMatch(columns: seq<string>, keywords: seq<string>): (found: Option<string>)
  {
    if columns == [] then None
    else if Matches(columns[0], keywords) then Some(columns[0])
    else FirstMatch(columns[1..], keywords)
  }

  /** `find_column`: columns in the outer loop, keywords in the inner loop,
      the first hit returned at once, `None` after both loops. */
  method FindColumn(columns: seq<string>, keywords: seq<string>) returns (found: Option<string>)
    ensures found == FirstMatch(columns, keywords)
  {
    var i := 0;
    while i < |columns|
      invariant 0 <= i <= |columns|
      invariant FirstMatch(columns[i..], keywords) == FirstMatch(columns, keywords)
    {
      var low := Lower(columns[i]);
      var j := 0;
      while j < |keywords|
        invariant 0 <= j <= |keywords|
        invariant forall k :: 0 <= k < j ==> !Contains(low, keywords[k])
      {
        if Contains(low, keywords[j]) {
          assert Matches(columns[i], keywords);
          return Some(columns[i]);
        }
        j := j + 1;
      }
      assert !Matches(columns[i], keywords);
      assert columns[i..][1..] == columns[i + 1..];
      i := i + 1;
    }
    return None;
  }

  /** No column is found exactly when no column matches any keyword. */
  lemma {:induction false} FirstMatchNoneIff(columns: seq<string>, keywords: seq<string>)
    ensures FirstMatch(columns, keywords).None? <==>
      forall i :: 0 <= i < |columns| ==> !Matches(columns[i], keywords)
  {
    if columns != [] {
      FirstMatchNoneIff(columns[1..], keywords);
      assert forall i :: 1 <= i < |columns| ==> columns[i] == columns[1..][i - 1];
    }
  }

  /** A found column is one of the columns, it matches, and every column
      before it does not. */
  lemma {:induction false} FirstMatchIsFirst(columns: seq<string>, keywords: seq<string>)
    requires FirstMatch(columns, keywords).Some?
    ensures exists i :: 0 <= i < |columns| && columns[i] == FirstMatch(columns, keywords).value
                     && Matches(columns[i], keywords)
                     && (forall j :: 0 <= j < i ==> !Matches(columns[j], keywords))
  {
    if !Matches(columns[0], keywords) {
      FirstMatchIsFirst(columns[1..], keywords);
      var i :| 0 <= i < |columns[1..]| && columns[1..][i] == FirstMatch(columns[1..], keywords).value
               && Matches(columns[1..][i], keywords)
               && (forall j :: 0 <= j < i ==> !Matches(columns[1..][j], keywords));
      assert columns[i + 1] == columns[1..][i];
      assert forall j :: 0 <= j < i + 1 ==> !Matches(columns[j], keywords) by {
        forall j | 0 <= j < i + 1 ensures !Matches(columns[j], keywords) {
          if j > 0 { assert columns[j] == columns[1..][j - 1]; }
        }
      }
    } else {
      assert columns[0] == FirstMatch(columns, keywords).value;
    }
  }

  /** Only which keywords are listed matters, not their order or
      repetitions: columns are the outer loop. */
  lemma {:induction false} KeywordOrderIrrelevant(columns: seq<string>, keywords: seq<string>, keywords': seq<string>)
    requires forall kw :: kw in keywords <==> kw in keywords'
    ensures FirstMatch(columns, keywords) == FirstMatch(columns, keywords')
  {
    if columns != [] {
      assert Matches(columns[0], keywords) == Matches(columns[0], keywords');
      KeywordOrderIrrelevant(columns[1..], keywords, keywords');
    }
  }

  /** Matching ignores the case of the column name. */
  lemma MatchIgnoresColumnCase(column: string, keywords: seq<string>)
    ensures Matches(column, keywords) <==> Matches(Lower(column), keywords)
  {
    LowerIdempotent(column);
  }

  /** "UNITS" matches "unit", but "Units" does not match "Unit": the keyword
      is not lower-cased. */
  lemma CaseExamples()
    ensures Matches("UNITS", ["unit"])
    ensures !Matches("Units", ["Unit"])
  {
    assert Lower("UNITS") == "units";
    assert Contains("units", "unit") by {
      assert OccursAt("units", "unit", 0);
    }
    assert Lower("Units") == "units";
    assert !Contains("units", "Unit") by {
      forall i: nat ensures !OccursAt("units", "Unit", i) {
        if i + 4 <= 5 {
          assert "units"[i..i + 4][0] == "units"[i] != 'U';
        }
      }
    }
  }

  // ---------------------------------------------------------------------
  // The character filter of to_numeric (train_model.py, line 22)
  // ---------------------------------------------------------------------

  /** The characters the filter keeps: digits, '.' and '-'. */
  predicate IsKept(c: char)
  {
    '0' <= c <= '9' || c == '.' || c == '-'
  }

  /** Removal of every character that is not a digit, '.' or '-'. */
  function CleanNumeric(s: string): (r: string)
    ensures |r| <= |s|
    ensures forall i :: 0 <= i < |r| ==> IsKept(r[i])
  {
    if s == [] then []
    else (if IsKept(s[0]) then [s[0]] else []) + CleanNumeric(s[1..])
  }

  /** The filter works character by character: cleaning a concatenation is
      concatenating the cleaned parts, so kept characters stay in order. */
  lemma {:induction false} CleanNumericAppend(s: string, t: string)
    ensures CleanNumeric(s + t) == CleanNumeric(s) + CleanNumeric(t)
  {
    if s != [] {
      var head := if IsKept(s[0]) then [s[0]] else [];
      assert (s + t)[0] == s[0];
      assert (s + t)[1..] == s[1..] + t;
      CleanNumericAppend(s[1..], t);
      calc {
        CleanNumeric(s + t);
        head + CleanNumeric(s[1..] + t);
        head + (CleanNumeric(s[1..]) + CleanNumeric(t));
        (head + CleanNumeric(s[1..])) + CleanNumeric(t);
        CleanNumeric(s) + CleanNumeric(t);
      }
    } else {
      assert s + t == t;
    }
  }

  /** Every kept character occurs as often as in the input; every other
      character not at all. */
  lemma {:induction false} CleanNumericCounts(s: string, c: char)
    ensures multiset(CleanNumeric(s))[c] == if IsKept(c) then multiset(s)[c] else 0
  {
    if s != [] {
      CleanNumericCounts(s[1..], c);
      assert s == [s[0]] + s[1..];
      assert multiset(s) == multiset([s[0]]) + multiset(s[1..]);
    }
  }

  /** A string made only of kept characters is left unchanged. */
  lemma {:induction false} CleanNumericFixesClean(s: string)
    requires forall i :: 0 <= i < |s| ==> IsKept(s[i])
    ensures CleanNumeric(s) == s
  {
    if s != [] {
      CleanNumericFixesClean(s[1..]);
    }
  }

  /** Cleaning twice is cleaning once. */
  lemma CleanNumericIdempotent(s: string)
    ensures CleanNumeric(CleanNumeric(s)) == CleanNumeric(s)
  {
    CleanNumericFixesClean(CleanNumeric(s));
  }

  /** Rupee signs and thousands separators are dropped; the decimal point
      is kept. */
  lemma CleanNumericExample()
    ensures CleanNumeric("\U{20B9}1,234") == "1234"
    ensures CleanNumeric("1,234.50") == "1234.50"
  {
  }
}
