/** The e-mail check shared by the sign-in, password-reset and profile forms:
    the pattern `^[^\s@]+@[^\s@]+\.[^\s@]+$`. */
module Email {
  import opened Strings

  /** A character `[^\s@]` accepts. */
  predicate Plain(c: char)
  {
    !IsSpace(c) && c != '@'
  }

  /** Every character of `s` in `[lo, hi)` is plain. */
  predicate PlainBetween(s: string, lo: nat, hi: nat)
    requires lo <= hi <= |s|
  {
    forall t :: lo <= t < hi ==> Plain(s[t])
  }

  /** The pattern read literally: one or more plain characters, '@', one or
      more plain characters, '.', one or more plain characters, and nothing
      else. */
  ghost predicate MatchesPattern(s: string)
  {
    exists i: nat, j: nat ::
      0 < i && i + 1 < j && j + 1 < |s| && s[i] == '@' && s[j] == '.'
      && PlainBetween(s, 0, i) && PlainBetween(s, i + 1, j) && PlainBetween(s, j + 1, |s|)
  }

  /** The check as the client evaluates it: the first '@' is neither first nor
      last, no other character is '@' or whitespace, and the part after '@'
      has a '.' that is neither its first nor its last character. */
  predicate IsValidEmail(s: string)
  {
    var at := IndexOf(s, '@');
    && 0 < at < |s|
    && PlainBetween(s, 0, at) && PlainBetween(s, at + 1, |s|)
    && exists k :: at + 1 < k < |s| - 1 && s[k] == '.'
  }

  /** The check accepts exactly the strings the pattern matches. */
  lemma IsValidEmailMatchesPattern(s: string)
    ensures IsValidEmail(s) <==> MatchesPattern(s)
  {
    if IsValidEmail(s) {
      ValidMatches(s);
    }
    if MatchesPattern(s) {
      MatchesValid(s);
    }
  }

  lemma ValidMatches(s: string)
    requires IsValidEmail(s)
    ensures MatchesPattern(s)
  {
    var at := IndexOf(s, '@');
    var k :| at + 1 < k < |s| - 1 && s[k] == '.';
    assert PlainBetween(s, at + 1, k) && PlainBetween(s, k + 1, |s|);
  }

  lemma MatchesValid(s: string)
    requires MatchesPattern(s)
    ensures IsValidEmail(s)
  {
    var i: nat, j: nat :|
      0 < i && i + 1 < j && j + 1 < |s| && s[i] == '@' && s[j] == '.'
      && PlainBetween(s, 0, i) && PlainBetween(s, i + 1, j) && PlainBetween(s, j + 1, |s|);
    assert forall t :: 0 <= t < i ==> s[t] != '@';
    assert IndexOf(s, '@') == i;
    forall t | i + 1 <= t < |s|
      ensures Plain(s[t])
    {
      if t == j {
        assert s[t] == '.';
      }
    }
    assert PlainBetween(s, i + 1, |s|);
  }

  /** Whitespace anywhere makes an address invalid. */
  lemma SpaceInvalid(s: string, k: nat)
    requires k < |s| && IsSpace(s[k])
    ensures !IsValidEmail(s)
  {
  }
}
