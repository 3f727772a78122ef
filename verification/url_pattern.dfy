/** The partner form's website check: the JavaScript regular expression
    `^(https?|ftp):\/\/[^\s/$.?#].[^\s]*$` with the `i` flag, as a predicate on strings. */
module UrlPattern {

  /** The characters JavaScript's `\s` matches: WhiteSpace and LineTerminator of ECMAScript. */
  predicate IsSpace(c: char) {
    || c == '\t' || c == '\n' || c == '\U{B}' || c == '\U{C}' || c == '\r' || c == ' '
    || c == '\U{A0}' || c == '\U{1680}' || ('\U{2000}' <= c <= '\U{200A}')
    || c == '\U{2028}' || c == '\U{2029}' || c == '\U{202F}' || c == '\U{205F}'
    || c == '\U{3000}' || c == '\U{FEFF}'
  }

  /** The characters `.` does not match without the `s` flag. */
  predicate IsLineTerminator(c: char) {
    c == '\n' || c == '\r' || c == '\U{2028}' || c == '\U{2029}'
  }

  /** Letter case as the `i` flag folds it; outside ASCII nothing folds onto the
      pattern's letters. */
  function FoldCase(c: char): (folded: char) {
    if 'A' <= c <= 'Z' then (c as int + 32) as char else c
  }

  /** `t` spells the lower-case word `w` in any letter case. */
  predicate EqualsIgnoringCase(t: string, w: string) {
    |t| == |w| && forall i :: 0 <= i < |t| ==> FoldCase(t[i]) == w[i]
  }

  /** The alternatives of the group `(https?|ftp)`. */
  predicate IsScheme(t: string) {
    EqualsIgnoringCase(t, "http") || EqualsIgnoringCase(t, "https") || EqualsIgnoringCase(t, "ftp")
  }

  /** What `:\/\/[^\s/$.?#].[^\s]*$` accepts. */
  predicate IsAuthorityPart(u: string) {
    && |u| >= 5
    && u[..3] == "://"
    && !IsSpace(u[3]) && u[3] !in "/$.?#"
    && !IsLineTerminator(u[4])
    && forall i :: 5 <= i < |u| ==> !IsSpace(u[i])
  }

  /** The class `[^\s/$.?#]`. */
  predicate IsHostStart(c: char) {
    !IsSpace(c) && c != '/' && c != '$' && c != '.' && c != '?' && c != '#'
  }

  /** `[^\s]*$` matches from index `j` on. */
  predicate NoSpaceFrom(s: string, j: nat) {
    forall i :: j <= i < |s| ==> !IsSpace(s[i])
  }

  /** The pattern matches `s` with its group taking the first `k` characters: a scheme,
      then `:`, `/`, `/`, one character of `[^\s/$.?#]`, one character `.` matches, and only
      characters of `[^\s]` up to the end. */
  predicate MatchesAt(s: string, k: nat) {
    && k + 5 <= |s| && IsScheme(s[..k])
    && s[k] == ':' && s[k + 1] == '/' && s[k + 2] == '/'
    && IsHostStart(s[k + 3]) && !IsLineTerminator(s[k + 4])
    && NoSpaceFrom(s, k + 5)
  }

  /** The language of the pattern: it matches with some length of the group. */
  ghost predicate InPatternLanguage(s: string) {
    exists k: nat :: MatchesAt(s, k)
  }

  predicate HasPrefixIgnoringCase(s: string, w: string) {
    |s| >= |w| && EqualsIgnoringCase(s[..|w|], w)
  }

  /** `urlRegex.test(input)`: tries the alternatives in the order the regular expression's
      backtracking does: `https`, then `http`, then `ftp`. */
  function UrlRegexTest(s: string): (accepted: bool)
    ensures accepted ==> |s| >= 8 && (FoldCase(s[0]) == 'h' || FoldCase(s[0]) == 'f')
    ensures accepted ==> forall i :: 0 <= i < |s| ==> !IsLineTerminator(s[i])
  {
    || (HasPrefixIgnoringCase(s, "https") && IsAuthorityPart(s[5..]))
    || (HasPrefixIgnoringCase(s, "http") && IsAuthorityPart(s[4..]))
    || (HasPrefixIgnoringCase(s, "ftp") && IsAuthorityPart(s[3..]))
  }

  lemma SchemeLength(t: string)
    requires IsScheme(t)
    ensures |t| == 3 || |t| == 4 || |t| == 5
    ensures |t| == 3 ==> EqualsIgnoringCase(t, "ftp")
    ensures |t| == 4 ==> EqualsIgnoringCase(t, "http")
    ensures |t| == 5 ==> EqualsIgnoringCase(t, "https")
  {
  }

  /** The authority part read in place, at offset `k` of the whole string. */
  lemma AuthorityPartAt(s: string, k: nat)
    requires k <= |s|
    ensures IsAuthorityPart(s[k..]) <==>
      && k + 5 <= |s|
      && s[k] == ':' && s[k + 1] == '/' && s[k + 2] == '/'
      && IsHostStart(s[k + 3]) && !IsLineTerminator(s[k + 4])
      && NoSpaceFrom(s, k + 5)
  {
    var u := s[k..];
    if k + 5 <= |s| {
      assert u[..3] == "://" <==> (s[k] == ':' && s[k + 1] == '/' && s[k + 2] == '/') by {
        if s[k] == ':' && s[k + 1] == '/' && s[k + 2] == '/' {
          assert u[..3] == [s[k], s[k + 1], s[k + 2]];
        }
      }
      assert u[3] == s[k + 3] && u[4] == s[k + 4];
      assert (forall i :: 5 <= i < |u| ==> !IsSpace(u[i])) <==> NoSpaceFrom(s, k + 5) by {
        if forall i :: 5 <= i < |u| ==> !IsSpace(u[i]) {
          forall i | k + 5 <= i < |s| ensures !IsSpace(s[i]) {
            assert s[i] == u[i - k];
          }
        }
      }
    }
  }

  /** The test accepts exactly the strings of the pattern's language. */
  lemma UrlRegexTestMatchesPattern(s: string)
    ensures UrlRegexTest(s) <==> InPatternLanguage(s)
  {
    if UrlRegexTest(s) {
      AcceptedInLanguage(s);
    }
    if InPatternLanguage(s) {
      LanguageAccepted(s);
    }
  }

  lemma AcceptedInLanguage(s: string)
    requires UrlRegexTest(s)
    ensures InPatternLanguage(s)
  {
    if HasPrefixIgnoringCase(s, "https") && IsAuthorityPart(s[5..]) {
      InLanguageAt(s, 5);
    } else if HasPrefixIgnoringCase(s, "http") && IsAuthorityPart(s[4..]) {
      InLanguageAt(s, 4);
    } else {
      InLanguageAt(s, 3);
    }
  }

  /** A scheme of length `k` followed by the authority part is in the language. */
  lemma InLanguageAt(s: string, k: nat)
    requires k <= |s| && IsScheme(s[..k]) && IsAuthorityPart(s[k..])
    ensures InPatternLanguage(s)
  {
    AuthorityPartAt(s, k);
    assert MatchesAt(s, k);
  }

  lemma LanguageAccepted(s: string)
    requires InPatternLanguage(s)
    ensures UrlRegexTest(s)
  {
    var k: nat :| MatchesAt(s, k);
    AuthorityPartAt(s, k);
    AcceptedAt(s, k);
  }

  /** A scheme of length `k` followed by the authority part is accepted. */
  lemma AcceptedAt(s: string, k: nat)
    requires k <= |s| && IsScheme(s[..k]) && IsAuthorityPart(s[k..])
    ensures UrlRegexTest(s)
  {
    SchemeLength(s[..k]);
    if k == 5 {
      assert HasPrefixIgnoringCase(s, "https");
    } else if k == 4 {
      assert HasPrefixIgnoringCase(s, "http");
    } else {
      assert HasPrefixIgnoringCase(s, "ftp");
    }
  }

  /** An accepted string starts with `http`, `https` or `ftp` in some letter case, then `://`,
      then at least two more characters. */
  lemma AcceptedShape(s: string)
    requires UrlRegexTest(s)
    ensures exists w :: (w in ["http", "https", "ftp"]
      && |s| >= |w| + 5 && EqualsIgnoringCase(s[..|w|], w) && s[|w|..|w| + 3] == "://")
  {
    if HasPrefixIgnoringCase(s, "https") && IsAuthorityPart(s[5..]) {
      assert s[5..][..3] == s[5..8];
      assert "https" in ["http", "https", "ftp"];
    } else if HasPrefixIgnoringCase(s, "http") && IsAuthorityPart(s[4..]) {
      assert s[4..][..3] == s[4..7];
      assert "http" in ["http", "https", "ftp"];
    } else {
      assert s[3..][..3] == s[3..6];
      assert "ftp" in ["http", "https", "ftp"];
    }
  }

  /** A space is let through as the second character of the host part, which `.` matches. */
  lemma SecondHostCharacterMayBeSpace()
    ensures UrlRegexTest("http://a b")
  {
    var s := "http://a b";
    assert s[..4] == "http" && HasPrefixIgnoringCase(s, "http");
    var u := s[4..];
    assert u == "://a b" && u[..3] == "://";
    assert u[3] == 'a' && u[4] == ' ' && u[5] == 'b';
    assert IsAuthorityPart(u);
  }

  /** A space later in the host part is rejected. */
  lemma LaterSpaceRejected()
    ensures !UrlRegexTest("http://ab c")
  {
    var s := "http://ab c";
    OnlyHttpApplies(s);
    var u := s[4..];
    assert u == "://ab c" && u[5] == ' ' && IsSpace(u[5]);
  }

  /** A space as the first character of the host part is rejected. */
  lemma FirstHostCharacterSpaceRejected()
    ensures !UrlRegexTest("http:// ab")
  {
    var s := "http:// ab";
    OnlyHttpApplies(s);
    var u := s[4..];
    assert u == ":// ab" && u[3] == ' ' && IsSpace(u[3]);
  }

  /** For a string beginning `http:`, only the `http` alternative can match. */
  lemma OnlyHttpApplies(s: string)
    requires |s| >= 5 && s[..5] == "http:"
    ensures UrlRegexTest(s) <==> IsAuthorityPart(s[4..])
  {
    assert s[4] == ':' && FoldCase(s[4]) != 's';
    assert s[0] == 'h' && FoldCase(s[0]) != 'f';
    assert s[..4] == "http";
  }

  /** Letter case in the scheme is ignored. */
  lemma SchemeCaseIgnored()
    ensures UrlRegexTest("HTTPS://x.io")
    ensures UrlRegexTest("Ftp://files")
  {
    assert "HTTPS://x.io"[..5] == "HTTPS";
    assert "HTTPS://x.io"[5..] == "://x.io";
    assert "Ftp://files"[..3] == "Ftp";
    assert "Ftp://files"[3..] == "://files";
  }

  /** Another scheme is rejected. */
  lemma OtherSchemeRejected()
    ensures !UrlRegexTest("mailto://someone")
  {
    assert "mailto://someone"[0] == 'm';
  }

  /** A host part shorter than two characters, or one starting with a dot, is rejected. */
  lemma ShortOrDottedHostRejected()
    ensures !UrlRegexTest("http://a")
    ensures !UrlRegexTest("http://.example")
  {
    assert |"http://a"| == 8;
    assert "http://.example"[4..][3] == '.';
    assert "http://.example"[4] == ':';
    assert "http://.example"[3] == 'p';
  }
}
