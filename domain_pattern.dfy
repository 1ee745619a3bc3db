/** The language of the domain-URL pattern of the form's validation rule
    (src/Components/DomainForm.tsx:63):

      ^(https?:\/\/)?([\da-z.-]+)\.([a-z.]{2,6})([/\w .-]*)*\/?$

    over ASCII. `Matches` states the language as the pattern's parts laid end
    to end; `Accepts` decides it, and is proved to agree with `Matches`. The
    group `([/\w .-]*)*` repeats a starred class, so it denotes the same
    strings as `[/\w .-]*`. */
module DomainPattern {
  import Ascii

  // ---------------------------------------------------------------------
  // Character classes

  /** `[\da-z.-]` */
  predicate IsHostChar(c: char) {
    Ascii.IsDigit(c) || Ascii.IsLower(c) || c == '.' || c == '-'
  }

  /** `[a-z.]` */
  predicate IsTldChar(c: char) {
    Ascii.IsLower(c) || c == '.'
  }

  /** `\w` without the `u` flag: ASCII letters, digits and `_`. */
  predicate IsWordChar(c: char) {
    Ascii.IsUpper(c) || Ascii.IsLower(c) || Ascii.IsDigit(c) || c == '_'
  }

  /** `[/\w .-]` */
  predicate IsPathChar(c: char) {
    c == '/' || IsWordChar(c) || c == ' ' || c == '.' || c == '-'
  }

  predicate AllHost(s: string) { forall i :: 0 <= i < |s| ==> IsHostChar(s[i]) }

  predicate AllTld(s: string) { forall i :: 0 <= i < |s| ==> IsTldChar(s[i]) }

  predicate AllPath(s: string) { forall i :: 0 <= i < |s| ==> IsPathChar(s[i]) }

  // ---------------------------------------------------------------------
  // The language

  /** `([/\w .-]*)*\/?` */
  predicate PathWithSlash(p: string) {
    AllPath(p) || (|p| > 0 && p[|p| - 1] == '/' && AllPath(p[..|p| - 1]))
  }

  /** `u` splits as the host `u[..i]`, the dot `u[i]`, a top-level label of
      `k` characters, and the path with its optional final slash. */
  predicate SplitAt(u: string, i: nat, k: nat) {
    && 1 <= i
    && 2 <= k <= 6
    && i + 1 + k <= |u|
    && AllHost(u[..i])
    && u[i] == '.'
    && AllTld(u[i + 1..i + 1 + k])
    && PathWithSlash(u[i + 1 + k..])
  }

  /** The pattern without its optional scheme. */
  ghost predicate MatchesAfterScheme(u: string) {
    exists i: nat, k: nat :: SplitAt(u, i, k)
  }

  /** The whole pattern: `(https?:\/\/)?` followed by the rest. */
  ghost predicate Matches(s: string) {
    || MatchesAfterScheme(s)
    || ("http://" <= s && MatchesAfterScheme(s[7..]))
    || ("https://" <= s && MatchesAfterScheme(s[8..]))
  }

  // ---------------------------------------------------------------------
  // A decision procedure

  /** The string with a leading `http://` or `https://` removed. */
  function StripScheme(s: string): (u: string)
    ensures |u| <= |s| && u == s[|s| - |u|..]
  {
    if "https://" <= s then s[8..]
    else if "http://" <= s then s[7..]
    else s
  }

  /** Given that `u[..i]` is a non-empty run of host characters, some split
      point at or after `i` completes the pattern. A label of two characters
      suffices because every label character is also a path character. */
  function HostFrom(u: string, i: nat): bool
    requires 1 <= i <= |u|
    decreases |u| - i
  {
    || (i + 2 < |u| && u[i] == '.' && IsTldChar(u[i + 1]) && IsTldChar(u[i + 2]) && AllPath(u[i + 3..]))
    || (i < |u| && IsHostChar(u[i]) && HostFrom(u, i + 1))
  }

  function AcceptsAfterScheme(u: string): bool {
    |u| > 0 && IsHostChar(u[0]) && HostFrom(u, 1)
  }

  /** Tests the pattern: true exactly on the strings it matches. */
  function Accepts(s: string): (r: bool)
    ensures r <==> Matches(s)
  {
    StripSchemeCorrect(s);
    AcceptsAfterSchemeCorrect(StripScheme(s));
    AcceptsAfterScheme(StripScheme(s))
  }

  // ---------------------------------------------------------------------
  // Correctness of the decision procedure

  /** The optional final `\/?` adds no string: `/` is a path character. */
  lemma SlashIsPath(p: string)
    requires PathWithSlash(p)
    ensures AllPath(p)
  {
  }

  lemma {:induction false} HostFromSound(u: string, i: nat)
    requires 1 <= i <= |u|
    requires AllHost(u[..i])
    requires HostFrom(u, i)
    ensures MatchesAfterScheme(u)
    decreases |u| - i
  {
    if i + 2 < |u| && u[i] == '.' && IsTldChar(u[i + 1]) && IsTldChar(u[i + 2]) && AllPath(u[i + 3..]) {
      assert AllTld(u[i + 1..i + 3]);
      assert SplitAt(u, i, 2);
    } else {
      assert AllHost(u[..i + 1]) by {
        forall m | 0 <= m < i ensures IsHostChar(u[m]) {
          assert u[m] == u[..i][m];
        }
      }
      HostFromSound(u, i + 1);
    }
  }

  lemma {:induction false} HostFromComplete(u: string, i: nat, j: nat, k: nat)
    requires SplitAt(u, j, k)
    requires 1 <= i <= j
    ensures HostFrom(u, i)
    decreases j - i
  {
    if i == j {
      assert IsTldChar(u[i + 1]) by { assert u[i + 1] == u[i + 1..i + 1 + k][0]; }
      assert IsTldChar(u[i + 2]) by { assert u[i + 2] == u[i + 1..i + 1 + k][1]; }
      SlashIsPath(u[i + 1 + k..]);
      forall m | i + 3 <= m < |u| ensures IsPathChar(u[m]) {
        if m < i + 1 + k {
          assert u[m] == u[i + 1..i + 1 + k][m - i - 1];
        } else {
          assert u[m] == u[i + 1 + k..][m - i - 1 - k];
        }
      }
    } else {
      assert IsHostChar(u[i]) by { assert u[i] == u[..j][i]; }
      HostFromComplete(u, i + 1, j, k);
    }
  }

  lemma AcceptsAfterSchemeCorrect(u: string)
    ensures AcceptsAfterScheme(u) <==> MatchesAfterScheme(u)
  {
    if AcceptsAfterScheme(u) {
      assert AllHost(u[..1]);
      HostFromSound(u, 1);
    }
    if MatchesAfterScheme(u) {
      var i: nat, k: nat :| SplitAt(u, i, k);
      assert IsHostChar(u[0]) by { assert u[0] == u[..i][0]; }
      HostFromComplete(u, 1, i, k);
    }
  }

  /** A string that reaches a character outside the host class before any dot
      cannot match without its scheme stripped. */
  lemma BlockedBeforeDot(u: string, j: nat)
    requires j < |u| && !IsHostChar(u[j]) && u[j] != '.'
    requires forall m :: 0 <= m < j ==> u[m] != '.'
    ensures !MatchesAfterScheme(u)
  {
  }

  /** The scheme is optional, but where it is present the pattern can only
      match with it taken off: `:` belongs to no class. */
  lemma StripSchemeCorrect(s: string)
    ensures Matches(s) <==> MatchesAfterScheme(StripScheme(s))
  {
    if "https://" <= s {
      assert s[..5] == "https" && s[5] == ':';
      BlockedBeforeDot(s, 5);
      assert !("http://" <= s) by { assert s[4] == 's'; }
    } else if "http://" <= s {
      assert s[..4] == "http" && s[4] == ':';
      BlockedBeforeDot(s, 4);
    }
  }

  // ---------------------------------------------------------------------
  // What the pattern admits and refuses

  /** Every accepted string holds a dot followed by two label characters. */
  lemma AcceptedHasDottedLabel(s: string)
    ensures Matches(s) ==>
      exists j :: 0 <= j && j + 2 < |s| && s[j] == '.' && IsTldChar(s[j + 1]) && IsTldChar(s[j + 2])
  {
    if Matches(s) {
      StripSchemeCorrect(s);
      var u := StripScheme(s);
      var i: nat, k: nat :| SplitAt(u, i, k);
      var d := |s| - |u|;
      assert u[i + 1] == u[i + 1..i + 1 + k][0] && u[i + 2] == u[i + 1..i + 1 + k][1];
      assert s[d + i] == u[i] && s[d + i + 1] == u[i + 1] && s[d + i + 2] == u[i + 2];
    }
  }

  /** An upper-case letter met before any dot, once the scheme is taken off,
      rejects the string: the pattern has no case-insensitive flag. */
  lemma UppercaseBeforeFirstDotRejected(s: string, j: nat)
    requires j < |StripScheme(s)| && Ascii.IsUpper(StripScheme(s)[j])
    requires forall m :: 0 <= m < j ==> StripScheme(s)[m] != '.'
    ensures !Matches(s)
  {
    StripSchemeCorrect(s);
    BlockedBeforeDot(StripScheme(s), j);
  }

  /** The placeholder of the input field is accepted. */
  lemma PlaceholderAccepted()
    ensures Accepts("https://google.com")
  {
    var s := "https://google.com";
    assert "https://" <= s;
    assert StripScheme(s) == "google.com";
    var u := "google.com";
    assert u[..6] == "google" && u[7..9] == "co" && u[9..] == "m";
    assert AllPath(u[9..]);
    assert SplitAt(u, 6, 2);
    StripSchemeCorrect(s);
  }

  /** A string without a dot is rejected. */
  lemma NotAUrlRejected()
    ensures !Accepts("not a url")
  {
  }

  /** Upper-case hosts are rejected, with or without a scheme. */
  lemma UppercaseHostsRejected()
    ensures !Accepts("https://Google.com")
    ensures !Accepts("Google.com")
  {
  }

  /** The upper bound of `{2,6}` does not limit the label: characters past
      the sixth are taken by the path class, so an eight-letter label is
      accepted. */
  lemma LongLabelAccepted()
    ensures Accepts("example.abcdefgh")
  {
    var s := "example.abcdefgh";
    assert !("http://" <= s) && !("https://" <= s) by { assert s[0] == 'e'; }
    assert StripScheme(s) == s;
    assert s[..7] == "example" && s[8..10] == "ab" && s[10..] == "cdefgh";
    assert AllPath(s[10..]);
    assert SplitAt(s, 7, 2);
    StripSchemeCorrect(s);
  }

  /** Nor does the pattern demand a letter anywhere: four dots are accepted. */
  lemma DotsOnlyAccepted()
    ensures Accepts("....")
  {
  }
}
