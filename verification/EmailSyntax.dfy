/**
 * The e-mail address pattern of `isEmailValid`, written out over characters.
 *
 * The pattern is
 *   ^( atom(\.atom)* | ".+" ) @ ( \[g\.g\.g\.g] | (label\.)+ [a-zA-Z]{2,} )$
 * where an atom is a non-empty run of characters other than <>()[]\.,;:@",
 * and white space, g is one to three decimal digits and a label is a
 * non-empty run of [a-zA-Z0-9-].
 *
 * Two descriptions are given. The ghost predicates (DotAtom, HostName, ...)
 * follow the pattern's structure: wherever the pattern can backtrack they
 * existentially choose a split point. The compiled functions (IsDotAtom,
 * IsHostName, ..., EmailPatternTest) never backtrack: they split at the first
 * '.' or the last '@'. Each compiled function is proved equal to its ghost
 * counterpart for every input.
 */
module EmailSyntax {

  // ---- character classes ----------------------------------------------------

  /** JavaScript's `\s`: the ECMAScript white space and line terminator characters. */
  predicate IsJsWhitespace(c: char) {
    || c == '\t' || c == '\n' || c == '\U{000B}' || c == '\U{000C}' || c == '\r' || c == ' '
    || c == '\U{00A0}' || c == '\U{1680}' || ('\U{2000}' <= c <= '\U{200A}')
    || c == '\U{2028}' || c == '\U{2029}' || c == '\U{202F}' || c == '\U{205F}'
    || c == '\U{3000}' || c == '\U{FEFF}'
  }

  /** The characters JavaScript's `.` does not match (no `s` flag). */
  predicate IsLineTerminator(c: char) {
    c == '\n' || c == '\r' || c == '\U{2028}' || c == '\U{2029}'
  }

  /** `[^<>()\[\]\\.,;:\s@"]` */
  predicate IsAtomChar(c: char) {
    && c != '<' && c != '>' && c != '(' && c != ')' && c != '[' && c != ']'
    && c != '\\' && c != '.' && c != ',' && c != ';' && c != ':' && c != '@' && c != '"'
    && !IsJsWhitespace(c)
  }

  predicate IsDigit(c: char) { '0' <= c <= '9' }

  predicate IsLetter(c: char) { 'a' <= c <= 'z' || 'A' <= c <= 'Z' }

  /** `[a-zA-Z\-0-9]` */
  predicate IsLabelChar(c: char) { IsLetter(c) || IsDigit(c) || c == '-' }

  // ---- the pieces that involve no choice ---------------------------------------

  /** `[^<>()\[\]\\.,;:\s@"]+` */
  predicate Atom(s: string) {
    |s| > 0 && forall k | 0 <= k < |s| :: IsAtomChar(s[k])
  }

  /** `".+"`: a double quote, at least one character that is not a line terminator, a double quote. */
  predicate QuotedString(s: string) {
    && 3 <= |s| && s[0] == '"' && s[|s| - 1] == '"'
    && forall k | 0 < k < |s| - 1 :: !IsLineTerminator(s[k])
  }

  /** `[0-9]{1,3}` */
  predicate DigitGroup(s: string) {
    1 <= |s| <= 3 && forall k | 0 <= k < |s| :: IsDigit(s[k])
  }

  /** `[a-zA-Z\-0-9]+` */
  predicate Label(s: string) {
    |s| > 0 && forall k | 0 <= k < |s| :: IsLabelChar(s[k])
  }

  /** `[a-zA-Z]{2,}` */
  predicate TopLevelLabel(s: string) {
    |s| >= 2 && forall k | 0 <= k < |s| :: IsLetter(s[k])
  }

  // ---- the pattern, split the way it is written ------------------------------

  /** `atom(\.atom)*` */
  ghost predicate DotAtom(s: string)
    decreases |s|, 1
  {
    Atom(s) || exists j :: DotAtomSplit(s, j)
  }

  /** `s` is an atom, a '.' at `j`, then a dot-atom. */
  ghost predicate DotAtomSplit(s: string, j: int)
    decreases |s|, 0
  {
    0 < j < |s| - 1 && Atom(s[..j]) && s[j] == '.' && DotAtom(s[j + 1..])
  }

  /** The local part: `atom(\.atom)*` or `".+"`. */
  ghost predicate LocalPart(s: string) {
    DotAtom(s) || QuotedString(s)
  }

  /** One digit group followed by `more` groups, each introduced by a '.'. */
  ghost predicate DottedGroups(s: string, more: nat)
    decreases more, 1
  {
    if more == 0 then DigitGroup(s) else exists j :: GroupsSplit(s, more, j)
  }

  /** A digit group, a '.' at `j`, then `more - 1` further groups. */
  ghost predicate GroupsSplit(s: string, more: nat, j: int)
    requires more > 0
    decreases more - 1, 2
  {
    0 < j < |s| && DigitGroup(s[..j]) && s[j] == '.' && DottedGroups(s[j + 1..], more - 1)
  }

  /** `\[[0-9]{1,3}\.[0-9]{1,3}\.[0-9]{1,3}\.[0-9]{1,3}]` */
  ghost predicate AddressLiteral(d: string) {
    2 <= |d| && d[0] == '[' && d[|d| - 1] == ']' && DottedGroups(d[1..|d| - 1], 3)
  }

  /** `([a-zA-Z\-0-9]+\.)+[a-zA-Z]{2,}` */
  ghost predicate HostName(d: string)
    decreases |d|, 1
  {
    exists j :: HostSplit(d, j)
  }

  /** A label, a '.' at `j`, then either the top-level label or another host name. */
  ghost predicate HostSplit(d: string, j: int)
    decreases |d|, 0
  {
    0 < j < |d| && Label(d[..j]) && d[j] == '.' && (TopLevelLabel(d[j + 1..]) || HostName(d[j + 1..]))
  }

  /** The domain: an address literal or a host name. */
  ghost predicate Domain(d: string) {
    AddressLiteral(d) || HostName(d)
  }

  /** The whole pattern: some '@' splits the text into a local part and a domain. */
  ghost predicate EmailPattern(s: string) {
    exists i :: EmailSplit(s, i)
  }

  /** An '@' at `i` with a local part before it and a domain after it. */
  ghost predicate EmailSplit(s: string, i: int) {
    0 <= i < |s| && s[i] == '@' && LocalPart(s[..i]) && Domain(s[i + 1..])
  }

  // ---- searching ---------------------------------------------------------------

  /** The index of the first `c` in `s`, or `|s|` when there is none. */
  function IndexOf(s: string, c: char): (j: nat)
    ensures j <= |s|
    ensures j < |s| ==> s[j] == c
    ensures forall k | 0 <= k < j :: s[k] != c
  {
    if |s| == 0 then 0
    else if s[0] == c then 0
    else 1 + IndexOf(s[1..], c)
  }

  /** The index of the last `c` in `s`, or -1 when there is none. */
  function LastIndexOf(s: string, c: char): (i: int)
    ensures -1 <= i < |s|
    ensures 0 <= i ==> s[i] == c
    ensures forall k | i < k < |s| :: s[k] != c
  {
    if |s| == 0 then -1
    else if s[|s| - 1] == c then |s| - 1
    else LastIndexOf(s[..|s| - 1], c)
  }

  /** The first `c` in `s` is at `j` when `s[j]` is one and nothing before it is. */
  lemma IndexOfIs(s: string, c: char, j: nat)
    requires j < |s| && s[j] == c
    requires forall k | 0 <= k < j :: s[k] != c
    ensures IndexOf(s, c) == j
  {
  }

  // ---- the checker, which never backtracks -----------------------------------

  /** An atom contains no '.', so a dot-atom can only be split at its first '.'. */
  lemma DotAtomAtFirstDot(s: string)
    ensures var j := IndexOf(s, '.');
      DotAtom(s) <==> if j == |s| then Atom(s) else DotAtomSplit(s, j)
  {
    var j := IndexOf(s, '.');
    if j < |s| {
      assert !Atom(s) by { assert !IsAtomChar(s[j]); }
      if j' :| DotAtomSplit(s, j') {
        forall k | 0 <= k < j' ensures s[k] != '.' {
          assert IsAtomChar(s[..j'][k]);
        }
        IndexOfIs(s, '.', j');
      }
    }
  }

  function IsDotAtom(s: string): (r: bool)
    ensures r <==> DotAtom(s)
    decreases |s|
  {
    DotAtomAtFirstDot(s);
    var j := IndexOf(s, '.');
    if j == |s| then Atom(s)
    else 0 < j < |s| - 1 && Atom(s[..j]) && IsDotAtom(s[j + 1..])
  }

  function IsLocalPart(s: string): (r: bool)
    ensures r <==> LocalPart(s)
  {
    IsDotAtom(s) || QuotedString(s)
  }

  /** A digit group contains no '.', so the groups can only be split at the first '.'. */
  lemma DottedGroupsAtFirstDot(s: string, more: nat)
    requires more > 0
    ensures DottedGroups(s, more) <==> GroupsSplit(s, more, IndexOf(s, '.'))
  {
    if j' :| GroupsSplit(s, more, j') {
      forall k | 0 <= k < j' ensures s[k] != '.' {
        assert IsDigit(s[..j'][k]);
      }
      IndexOfIs(s, '.', j');
    }
  }

  /** Every character of dotted digit groups is a digit or a '.'. */
  lemma DottedGroupsChars(s: string, more: nat)
    requires DottedGroups(s, more)
    ensures forall k | 0 <= k < |s| :: IsDigit(s[k]) || s[k] == '.'
    decreases more
  {
    if more > 0 {
      var j :| GroupsSplit(s, more, j);
      DottedGroupsChars(s[j + 1..], more - 1);
      forall k | 0 <= k < |s| ensures IsDigit(s[k]) || s[k] == '.' {
        if k < j { assert s[k] == s[..j][k]; }
        else if k > j { assert s[k] == s[j + 1..][k - j - 1]; }
      }
    }
  }

  function IsDottedGroups(s: string, more: nat): (r: bool)
    ensures r <==> DottedGroups(s, more)
    decreases more
  {
    if more == 0 then DigitGroup(s)
    else
      DottedGroupsAtFirstDot(s, more);
      var j := IndexOf(s, '.');
      j < |s| && DigitGroup(s[..j]) && IsDottedGroups(s[j + 1..], more - 1)
  }

  /** An address literal contains no '@'. */
  lemma AddressLiteralHasNoAt(d: string)
    requires AddressLiteral(d)
    ensures forall k | 0 <= k < |d| :: d[k] != '@'
  {
    var groups := d[1..|d| - 1];
    DottedGroupsChars(groups, 3);
    forall k | 0 < k < |d| - 1 ensures d[k] != '@' {
      assert d[k] == groups[k - 1];
    }
  }

  function IsAddressLiteral(d: string): (r: bool)
    ensures r <==> AddressLiteral(d)
  {
    2 <= |d| && d[0] == '[' && d[|d| - 1] == ']' && IsDottedGroups(d[1..|d| - 1], 3)
  }

  /** A label contains no '.', so a host name can only be split at its first '.'. */
  lemma HostNameAtFirstDot(d: string)
    ensures HostName(d) <==> HostSplit(d, IndexOf(d, '.'))
  {
    if j' :| HostSplit(d, j') {
      forall k | 0 <= k < j' ensures d[k] != '.' {
        assert IsLabelChar(d[..j'][k]);
      }
      IndexOfIs(d, '.', j');
    }
  }

  /** Every character of a host name is a label character or a '.'. */
  lemma {:induction false} HostNameChars(d: string)
    requires HostName(d)
    ensures forall k | 0 <= k < |d| :: IsLabelChar(d[k]) || d[k] == '.'
    decreases |d|
  {
    var j :| HostSplit(d, j);
    var rest := d[j + 1..];
    if !TopLevelLabel(rest) {
      HostNameChars(rest);
    }
    assert forall k | 0 <= k < |rest| :: IsLabelChar(rest[k]) || rest[k] == '.';
    forall k | 0 <= k < |d| ensures IsLabelChar(d[k]) || d[k] == '.' {
      if k < j { assert d[k] == d[..j][k]; }
      else if k > j { assert d[k] == rest[k - j - 1]; }
    }
  }

  function IsHostName(d: string): (r: bool)
    ensures r <==> HostName(d)
    decreases |d|
  {
    HostNameAtFirstDot(d);
    var j := IndexOf(d, '.');
    j < |d| && Label(d[..j]) && (TopLevelLabel(d[j + 1..]) || IsHostName(d[j + 1..]))
  }

  /** A domain contains no '@'. */
  lemma DomainHasNoAt(d: string)
    requires Domain(d)
    ensures forall k | 0 <= k < |d| :: d[k] != '@'
  {
    if AddressLiteral(d) {
      AddressLiteralHasNoAt(d);
    } else {
      HostNameChars(d);
    }
  }

  function IsDomain(d: string): (r: bool)
    ensures r <==> Domain(d)
  {
    IsAddressLiteral(d) || IsHostName(d)
  }

  /** A domain contains no '@', so the pattern can only split the text at its last '@'. */
  lemma EmailAtLastAt(s: string)
    ensures EmailPattern(s) <==> EmailSplit(s, LastIndexOf(s, '@'))
  {
    if i' :| EmailSplit(s, i') {
      var i := LastIndexOf(s, '@');
      var d := s[i' + 1..];
      DomainHasNoAt(d);
      forall k | i' < k < |s| ensures s[k] != '@' {
        assert s[k] == d[k - i' - 1];
      }
      assert i == i';
    }
  }

  /** `re.test(s)` for the address pattern, computed without backtracking. */
  function EmailPatternTest(s: string): (r: bool)
    ensures r <==> EmailPattern(s)
  {
    EmailAtLastAt(s);
    var i := LastIndexOf(s, '@');
    0 <= i && IsLocalPart(s[..i]) && IsDomain(s[i + 1..])
  }

  /** Text without an '@' never matches. */
  lemma NoAtSignNoMatch(s: string)
    requires forall k | 0 <= k < |s| :: s[k] != '@'
    ensures !EmailPattern(s)
  {
  }
}
