/**
 * Literal, case-insensitive substring search as performed by a Java pattern built from
 * a quoted query with the CASE_INSENSITIVE flag and without UNICODE_CASE: every
 * character of the query stands for itself, and only the US-ASCII letters A-Z and a-z
 * are folded onto each other.
 */
module AsciiMatch {

  predicate IsAsciiUpper(c: char) { 'A' <= c <= 'Z' }

  predicate IsAsciiLetter(c: char) { IsAsciiUpper(c) || 'a' <= c <= 'z' }

  /** Folds A-Z onto a-z and leaves every other character alone. */
  function ToLowerAscii(c: char): (l: char)
    ensures IsAsciiUpper(c) ==> 'a' <= l <= 'z' && l as int == c as int + 32
    ensures !IsAsciiUpper(c) ==> l == c
    ensures !IsAsciiUpper(l)
  {
    if IsAsciiUpper(c) then (c as int + 32) as char else c
  }

  /** Two characters are the same under US-ASCII case folding. */
  predicate SameIgnoringCase(a: char, b: char) {
    ToLowerAscii(a) == ToLowerAscii(b)
  }

  /** The window of `text` starting at `i` equals `query` character by character, up to case. */
  ghost predicate MatchesAt(text: string, query: string, i: nat)
    requires i + |query| <= |text|
  {
    forall k :: 0 <= k < |query| ==> SameIgnoringCase(text[i + k], query[k])
  }

  /** Reference definition: `query` occurs somewhere in `text`, up to case. */
  ghost predicate OccursIn(query: string, text: string) {
    exists i: nat :: i + |query| <= |text| && MatchesAt(text, query, i)
  }

  /** Whether `text` starts with `query`, up to case. */
  function StartsWithIgnoringCase(text: string, query: string): (b: bool)
    ensures b <==> |query| <= |text| && MatchesAt(text, query, 0)
    decreases |query|
  {
    if query == [] then true
    else if text == [] then false
    else SameIgnoringCase(text[0], query[0]) && StartsWithIgnoringCase(text[1..], query[1..])
  }

  /**
   * Whether the matcher finds the quoted query in `text`: the start positions are tried
   * from left to right, including the position just past the last character.
   */
  function Find(text: string, query: string): (found: bool)
    ensures found <==> OccursIn(query, text)
    decreases |text|
  {
    if text == [] then
      StartsWithIgnoringCase(text, query)
    else
      OccursInFirstOrRest(text, query);
      StartsWithIgnoringCase(text, query) || Find(text[1..], query)
  }

  /** An occurrence in a non-empty text is at its first position or in the text after it. */
  lemma OccursInFirstOrRest(text: string, query: string)
    requires text != []
    ensures OccursIn(query, text) <==>
              (|query| <= |text| && MatchesAt(text, query, 0)) || OccursIn(query, text[1..])
  {
    if OccursIn(query, text[1..]) {
      var i: nat :| i + |query| <= |text[1..]| && MatchesAt(text[1..], query, i);
      assert MatchesAt(text, query, i + 1) by {
        forall k | 0 <= k < |query| ensures SameIgnoringCase(text[i + 1 + k], query[k]) {
          assert text[1..][i + k] == text[i + 1 + k];
        }
      }
    }
    if OccursIn(query, text) {
      var i: nat :| i + |query| <= |text| && MatchesAt(text, query, i);
      if i > 0 {
        assert MatchesAt(text[1..], query, i - 1) by {
          forall k | 0 <= k < |query| ensures SameIgnoringCase(text[1..][i - 1 + k], query[k]) {
            assert text[1..][i - 1 + k] == text[i + k];
          }
        }
      }
    }
  }

  /** The empty query is found in every text. */
  lemma EmptyQueryFound(text: string)
    ensures Find(text, "")
  {
  }

  /** A query longer than the text is never found. */
  lemma LongQueryNotFound(text: string, query: string)
    requires |query| > |text|
    ensures !Find(text, query)
  {
  }

  /** Away from letters, folding changes nothing: such characters match only themselves. */
  lemma SameIgnoringCaseNonLetter(a: char, b: char)
    requires !IsAsciiLetter(b)
    ensures SameIgnoringCase(a, b) <==> a == b
  {
  }

  /** `query` occurs verbatim in `text` at position `i`. */
  ghost predicate VerbatimAt(text: string, query: string, i: nat) {
    i + |query| <= |text| && text[i..i + |query|] == query
  }

  /**
   * A query without ASCII letters is found exactly where it occurs verbatim, so the
   * characters that are special in a regular expression ('.', '*', '[', '(' ...) are
   * matched literally.
   */
  lemma NonLetterQueryIsVerbatim(text: string, query: string)
    requires forall k :: 0 <= k < |query| ==> !IsAsciiLetter(query[k])
    ensures Find(text, query) <==> exists i: nat :: VerbatimAt(text, query, i)
  {
    if Find(text, query) {
      var i: nat :| i + |query| <= |text| && MatchesAt(text, query, i);
      forall k | 0 <= k < |query| ensures text[i..i + |query|][k] == query[k] {
        SameIgnoringCaseNonLetter(text[i + k], query[k]);
      }
      assert VerbatimAt(text, query, i);
    }
    if exists i: nat :: VerbatimAt(text, query, i) {
      var i: nat :| VerbatimAt(text, query, i);
      forall k | 0 <= k < |query| ensures SameIgnoringCase(text[i + k], query[k]) {
        assert text[i..i + |query|][k] == text[i + k];
      }
      assert MatchesAt(text, query, i);
    }
  }

  /** Lower-cases every ASCII letter of a string. */
  function LowerAscii(s: string): (l: string)
    ensures |l| == |s| && StartsWithIgnoringCase(l, s) && StartsWithIgnoringCase(s, l)
    ensures forall k :: 0 <= k < |l| ==> !IsAsciiUpper(l[k])
  {
    seq(|s|, k requires 0 <= k < |s| => ToLowerAscii(s[k]))
  }

  /** Lower-casing a string that is already lower-cased changes nothing. */
  lemma LowerAsciiIdempotent(s: string)
    ensures LowerAscii(LowerAscii(s)) == LowerAscii(s)
  {
  }

  /** The case of the query's ASCII letters does not change what is found. */
  lemma {:induction false} QueryCaseIrrelevant(text: string, query: string)
    ensures Find(text, query) == Find(text, LowerAscii(query))
  {
    var lq := LowerAscii(query);
    forall i: nat | i + |query| <= |text| ensures MatchesAt(text, query, i) <==> MatchesAt(text, lq, i) {
      assert forall k :: 0 <= k < |query| ==> ToLowerAscii(lq[k]) == ToLowerAscii(query[k]);
    }
    if Find(text, query) {
      var i: nat :| i + |query| <= |text| && MatchesAt(text, query, i);
      assert MatchesAt(text, lq, i);
    }
    if Find(text, lq) {
      var i: nat :| i + |lq| <= |text| && MatchesAt(text, lq, i);
      assert MatchesAt(text, query, i);
    }
  }

  /** Regular-expression syntax in the query is matched literally: ".*" is not a wildcard. */
  lemma WildcardIsLiteral()
    ensures !Find("Date", ".*")
  {
    var q := ".*";
    assert forall k :: 0 <= k < |q| ==> !IsAsciiLetter(q[k]);
    NonLetterQueryIsVerbatim("Date", q);
    assert forall i: nat :: !VerbatimAt("Date", q, i);
  }

  /** ... and it does match the two characters '.' and '*' where they occur. */
  lemma WildcardMatchesItself()
    ensures Find("x.*", ".*")
  {
    assert StartsWithIgnoringCase("x.*"[1..], ".*");
  }

  /** ASCII letters fold, other letters do not. */
  lemma FoldingIsAsciiOnly()
    ensures Find("Audit", "aUDIT")
    ensures !Find("\U{C9}", "\U{E9}")
  {
    assert StartsWithIgnoringCase("Audit", "aUDIT");
    assert !SameIgnoringCase('\U{C9}', '\U{E9}');
  }
}
