/**
  The link test of the moderation handler: a fresh, case-insensitive regular expression

      (?:https?:\/\/|www\.)[^\s]+|(?:[a-zA-Z0-9-]+\.)+[a-zA-Z]{2,}(\/[^\s]*)?

  whose `test` answers whether SOME substring of the text is a whole match of one of the
  two alternatives. `RegexTest` states that literally, character by character;
  `ContainsLink` is the scanner that decides it, and `MatchIffLinkAt` connects them.
  Without the `u` flag, case-insensitive matching folds ASCII letters only.
*/
module LinkClassifier {

  /** `\s`: the WhiteSpace and LineTerminator code points of ECMAScript. */
  predicate IsSpace(c: char) {
    || c == '\t' || c == '\n' || c == '\U{B}' || c == '\U{C}' || c == '\r' || c == ' '
    || c == '\U{A0}' || c == '\U{1680}' || ('\U{2000}' <= c <= '\U{200A}')
    || c == '\U{2028}' || c == '\U{2029}' || c == '\U{202F}' || c == '\U{205F}'
    || c == '\U{3000}' || c == '\U{FEFF}'
  }

  predicate IsAsciiLetter(c: char) {
    'a' <= c <= 'z' || 'A' <= c <= 'Z'
  }

  /** `[a-zA-Z0-9-]`, one character of a domain label. */
  predicate IsLabelChar(c: char) {
    IsAsciiLetter(c) || '0' <= c <= '9' || c == '-'
  }

  /** Case folding of the `i` flag: ASCII upper case to lower case, everything else unchanged. */
  function Fold(c: char): (d: char)
    ensures IsAsciiLetter(c) <==> 'a' <= d <= 'z'
    ensures 'A' <= c <= 'Z' ==> d as int == c as int + 32
    ensures !('A' <= c <= 'Z') ==> d == c
  {
    if 'A' <= c <= 'Z' then (c as int + 32) as char else c
  }

  // ---------------------------------------------------------------------------
  // The pattern, as a property of a whole token

  /** `t` starts with the lower-case pattern `p`, compared under case folding. */
  predicate OpensWith(t: string, p: string) {
    |p| <= |t| && forall k | 0 <= k < |p| :: Fold(t[k]) == p[k]
  }

  /** `t` is `p` followed by one or more non-space characters. */
  ghost predicate PrefixedToken(t: string, p: string) {
    && |p| < |t|
    && OpensWith(t, p)
    && forall k | |p| <= k < |t| :: !IsSpace(t[k])
  }

  /** First alternative: `(?:https?:\/\/|www\.)[^\s]+`. */
  ghost predicate SchemeToken(t: string) {
    PrefixedToken(t, "http://") || PrefixedToken(t, "https://") || PrefixedToken(t, "www.")
  }

  /** `(?:[a-zA-Z0-9-]+\.)+`: one or more labels, each closed by a dot. */
  ghost predicate DottedLabels(u: string) {
    && |u| >= 2
    && IsLabelChar(u[0])
    && u[|u| - 1] == '.'
    && (forall k | 0 <= k < |u| :: IsLabelChar(u[k]) || u[k] == '.')
    && (forall k | 0 < k < |u| :: u[k] == '.' ==> u[k - 1] != '.')
  }

  /** `[a-zA-Z]{2,}`. */
  ghost predicate TopLabel(v: string) {
    |v| >= 2 && forall k | 0 <= k < |v| :: IsAsciiLetter(v[k])
  }

  /** `(\/[^\s]*)?`. */
  ghost predicate PathPart(w: string) {
    w == [] || (w[0] == '/' && forall k | 1 <= k < |w| :: !IsSpace(w[k]))
  }

  /** Second alternative: a bare domain with an optional path. */
  ghost predicate DomainToken(t: string) {
    exists a, b | 0 < a <= b <= |t| :: DottedLabels(t[..a]) && TopLabel(t[a..b]) && PathPart(t[b..])
  }

  ghost predicate LinkToken(t: string) {
    SchemeToken(t) || DomainToken(t)
  }

  /** What `linkRegex.test(text)` answers: some substring is a whole match. */
  ghost predicate RegexTest(s: string) {
    exists i, j | 0 <= i <= j <= |s| :: LinkToken(s[i..j])
  }

  // ---------------------------------------------------------------------------
  // The scanner

  /** `p` (lower case) occurs at `i` under folding and a non-space follows it. */
  predicate PrefixAt(s: string, i: nat, p: string) {
    i + |p| < |s| && OpensWith(s[i..], p) && !IsSpace(s[i + |p|])
  }

  predicate SchemeAt(s: string, i: nat) {
    PrefixAt(s, i, "http://") || PrefixAt(s, i, "https://") || PrefixAt(s, i, "www.")
  }

  /** A label character, a dot and two letters start at `i`: the shortest domain match. */
  predicate DomainAt(s: string, i: nat) {
    i + 3 < |s| && IsLabelChar(s[i]) && s[i + 1] == '.' && IsAsciiLetter(s[i + 2]) && IsAsciiLetter(s[i + 3])
  }

  predicate LinkAt(s: string, i: nat) {
    SchemeAt(s, i) || DomainAt(s, i)
  }

  /** Tries every start position from `i` on, as the regex engine does. */
  function LinkFrom(s: string, i: nat): (r: bool)
    requires i <= |s|
    ensures r <==> exists k | i <= k < |s| :: LinkAt(s, k)
    decreases |s| - i
  {
    if i == |s| then false
    else if LinkAt(s, i) then true
    else LinkFrom(s, i + 1)
  }

  /** `linkRegex.test(text)`. */
  function ContainsLink(s: string): (r: bool)
    ensures r <==> RegexTest(s)
  {
    MatchIffLinkAt(s);
    LinkFrom(s, 0)
  }

  // ---------------------------------------------------------------------------
  // Why the scanner decides the pattern

  lemma PrefixTokenAt(s: string, i: nat, p: string)
    requires PrefixAt(s, i, p)
    ensures PrefixedToken(s[i..i + |p| + 1], p)
  {
    var t := s[i..i + |p| + 1];
    forall k | 0 <= k < |p| ensures Fold(t[k]) == p[k] {
      assert t[k] == s[i..][k];
    }
    assert t[|p|] == s[i + |p|];
  }

  lemma TokenPrefixAt(s: string, i: nat, j: nat, p: string)
    requires i <= j <= |s| && PrefixedToken(s[i..j], p)
    ensures PrefixAt(s, i, p)
  {
    var t := s[i..j];
    forall k | 0 <= k < |p| ensures Fold(s[i..][k]) == p[k] {
      assert s[i..][k] == t[k];
    }
    assert s[i + |p|] == t[|p|];
  }

  /** The last label before the final dot ends in a label character. */
  lemma DottedLabelsEnd(u: string)
    requires DottedLabels(u)
    ensures IsLabelChar(u[|u| - 2]) && u[|u| - 1] == '.'
  {
    assert u[|u| - 2] != '.';
  }

  lemma CoreOfParts(t: string, a: nat, b: nat)
    requires 0 < a <= b <= |t| && DottedLabels(t[..a]) && TopLabel(t[a..b])
    ensures a >= 2 && DomainAt(t, a - 2)
  {
    DottedLabelsEnd(t[..a]);
    assert t[a - 2] == t[..a][a - 2] && t[a - 1] == t[..a][a - 1];
    assert t[a] == t[a..b][0] && t[a + 1] == t[a..b][1];
  }

  lemma DomainAtSlice(s: string, i: nat, j: nat, k: nat)
    requires i <= j <= |s| && DomainAt(s[i..j], k)
    ensures DomainAt(s, i + k)
  {
    var t := s[i..j];
    assert t[k] == s[i + k] && t[k + 1] == s[i + k + 1];
    assert t[k + 2] == s[i + k + 2] && t[k + 3] == s[i + k + 3];
  }

  /** The last label of a domain match ends in a label character, a dot and two letters. */
  lemma DomainTokenHasCore(s: string, i: nat, j: nat)
    requires i <= j <= |s| && DomainToken(s[i..j])
    ensures exists k | i <= k < |s| :: DomainAt(s, k)
  {
    var t := s[i..j];
    var a, b :| 0 < a <= b <= |t| && DottedLabels(t[..a]) && TopLabel(t[a..b]) && PathPart(t[b..]);
    CoreOfParts(t, a, b);
    DomainAtSlice(s, i, j, a - 2);
  }

  lemma DomainAtIsToken(s: string, k: nat)
    requires DomainAt(s, k)
    ensures DomainToken(s[k..k + 4])
  {
    var t := s[k..k + 4];
    assert DottedLabels(t[..2]);
    assert TopLabel(t[2..4]);
    assert PathPart(t[4..]);
  }

  /** Every whole match starts a position where the scanner stops. */
  lemma MatchHasLinkAt(s: string, i: nat, j: nat)
    requires i <= j <= |s| && LinkToken(s[i..j])
    ensures exists k | 0 <= k < |s| :: LinkAt(s, k)
  {
    if PrefixedToken(s[i..j], "http://") {
      TokenPrefixAt(s, i, j, "http://");
      assert LinkAt(s, i);
    } else if PrefixedToken(s[i..j], "https://") {
      TokenPrefixAt(s, i, j, "https://");
      assert LinkAt(s, i);
    } else if PrefixedToken(s[i..j], "www.") {
      TokenPrefixAt(s, i, j, "www.");
      assert LinkAt(s, i);
    } else {
      DomainTokenHasCore(s, i, j);
      var k :| i <= k < |s| && DomainAt(s, k);
      assert LinkAt(s, k);
    }
  }

  /** Every position where the scanner stops starts a whole match. */
  lemma LinkAtHasMatch(s: string, k: nat)
    requires k < |s| && LinkAt(s, k)
    ensures RegexTest(s)
  {
    if DomainAt(s, k) {
      DomainAtIsToken(s, k);
      assert LinkToken(s[k..k + 4]);
    } else if PrefixAt(s, k, "http://") {
      PrefixTokenAt(s, k, "http://");
      assert LinkToken(s[k..k + 8]);
    } else if PrefixAt(s, k, "https://") {
      PrefixTokenAt(s, k, "https://");
      assert LinkToken(s[k..k + 9]);
    } else {
      PrefixTokenAt(s, k, "www.");
      assert LinkToken(s[k..k + 5]);
    }
  }

  lemma MatchIffLinkAt(s: string)
    ensures RegexTest(s) <==> exists k | 0 <= k < |s| :: LinkAt(s, k)
  {
    if RegexTest(s) {
      var i, j :| 0 <= i <= j <= |s| && LinkToken(s[i..j]);
      MatchHasLinkAt(s, i, j);
    }
    if k :| 0 <= k < |s| && LinkAt(s, k) {
      LinkAtHasMatch(s, k);
    }
  }

  // ---------------------------------------------------------------------------
  // Consequences

  /** The `''` fallback of text extraction is never a link. */
  lemma EmptyTextIsNoLink()
    ensures !ContainsLink("")
  {
  }

  /** No scheme starts where the folded character is neither `h` nor `w`. */
  lemma NoSchemeAt(s: string, k: nat)
    requires k < |s| && Fold(s[k]) != 'h' && Fold(s[k]) != 'w'
    ensures !SchemeAt(s, k)
  {
    assert s[k..][0] == s[k];
  }

  /** A text without a dot and without a colon never matches: both alternatives need one. */
  lemma NoDotNoColonNoLink(s: string)
    requires forall k | 0 <= k < |s| :: s[k] != '.' && s[k] != ':'
    ensures !ContainsLink(s)
  {
    forall k | 0 <= k < |s| ensures !LinkAt(s, k) {
      var t := s[k..];
      if |t| > 3 {
        assert t[3] == s[k + 3];
        assert Fold(t[3]) != '.';
      }
      if |t| > 4 {
        assert t[4] == s[k + 4];
        assert Fold(t[4]) != ':';
      }
      if |t| > 5 {
        assert t[5] == s[k + 5];
        assert Fold(t[5]) != ':';
      }
    }
  }

  /** Examples: a scheme anywhere in the text, and a bare file name, are links. */
  lemma LinkExamples()
    ensures ContainsLink("check http://evil.example")
    ensures ContainsLink("file.txt")
    ensures ContainsLink("WWW.x")
  {
    assert DomainAt("check http://evil.example", 16);
    assert DomainAt("file.txt", 3);
    assert PrefixAt("WWW.x", 0, "www.") by {
      assert OpensWith("WWW.x"[0..], "www.");
    }
  }

  /** Examples: a number and an abbreviation are not links. */
  lemma NumberIsNoLink()
    ensures !ContainsLink("3.14")
  {
    var s := "3.14";
    forall k | 0 <= k < |s| ensures !LinkAt(s, k) {
      NoSchemeAt(s, k);
    }
  }

  lemma AbbreviationIsNoLink()
    ensures !ContainsLink("e.g.")
  {
    var e := "e.g.";
    forall k | 0 <= k < |e| ensures !LinkAt(e, k) {
      NoSchemeAt(e, k);
    }
  }

  lemma ProseIsNoLink()
    ensures !ContainsLink("hello world")
  {
    NoDotNoColonNoLink("hello world");
  }
}
