/** The three regular expressions the forms test input against, stated as what a match
    means (JavaScript `RegExp.prototype.test`, no flags), and how they relate. */
module Patterns {
  import opened Text

  /** A character of the class `[^\s@]`. */
  predicate PlainChar(c: char) {
    !IsSpace(c) && c != '@'
  }

  /** No character of `s` is white space or '@'. */
  predicate AllPlain(s: string) {
    forall i :: 0 <= i < |s| ==> PlainChar(s[i])
  }

  /** `\S+@\S+\.\S+` matches with its '@' at index `a` and its '.' at index `d`: one
      non-space character before the '@' is enough (the match need not start at 0), the
      run between '@' and '.' is non-empty and free of white space, and one non-space
      character follows the '.' (the match need not reach the end). */
  predicate LooseMatchAt(s: string, a: int, d: int) {
    0 < a && a + 1 < d && d + 1 < |s|
    && s[a] == '@' && s[d] == '.'
    && !IsSpace(s[a - 1]) && NoSpace(s[a + 1..d]) && !IsSpace(s[d + 1])
  }

  /** `/\S+@\S+\.\S+/.test(s)`, the e-mail check of the register, login, contact and
      profile forms (src/pages/Auth/Register.tsx:35). */
  predicate LooseEmail(s: string) {
    exists a, d :: 0 < a < |s| && 0 < d < |s| && LooseMatchAt(s, a, d)
  }

  /** `^[^\s@]+@[^\s@]+\.[^\s@]+$` matches with its '@' at index `a` and its '.' at
      index `d`: the whole string is a non-empty local part, '@', and a domain with a '.'
      that has at least one character on each side, with no white space and no second '@'. */
  predicate StrictMatchAt(s: string, a: int, d: int) {
    0 < a && a + 1 < d && d + 1 < |s|
    && s[a] == '@' && s[d] == '.'
    && AllPlain(s[..a]) && AllPlain(s[a + 1..])
  }

  /** `/^[^\s@]+@[^\s@]+\.[^\s@]+$/.test(s)`, the check of the password-reset form
      (src/pages/Auth/ForgotPassword.tsx:13). */
  predicate StrictEmail(s: string) {
    exists a, d :: 0 < a < |s| && 0 < d < |s| && StrictMatchAt(s, a, d)
  }

  /** `/^09\d{9}$/.test(s)`: an Iranian mobile number, "09" and nine more ASCII digits. */
  predicate IranMobile(s: string) {
    |s| == 11 && s[0] == '0' && s[1] == '9' && forall i :: 2 <= i < 11 ==> IsDecimalDigit(s[i])
  }

  /** Whatever the anchored check accepts, the unanchored one accepts too. */
  lemma StrictIsLoose(s: string)
    requires StrictEmail(s)
    ensures LooseEmail(s)
  {
    var a, d :| 0 < a < |s| && 0 < d < |s| && StrictMatchAt(s, a, d);
    assert s[a - 1] == s[..a][a - 1];
    assert s[d + 1] == s[a + 1..][d - a];
    assert forall i :: a + 1 <= i < d ==> s[i] == s[a + 1..][i - a - 1];
    assert LooseMatchAt(s, a, d);
  }

  /** An address the anchored check accepts holds exactly one '@' and no white space. */
  lemma StrictShape(s: string)
    requires StrictEmail(s)
    ensures NoSpace(s)
    ensures multiset(s)['@'] == 1
  {
    var a, d :| 0 < a < |s| && 0 < d < |s| && StrictMatchAt(s, a, d);
    var left, right := s[..a], s[a + 1..];
    assert s == left + [s[a]] + right;
    assert forall i :: 0 <= i < |left| ==> left[i] != '@';
    assert forall i :: 0 <= i < |right| ==> right[i] != '@';
    forall i | 0 <= i < |s| ensures !IsSpace(s[i]) {
      if i < a { assert s[i] == left[i]; }
      else if i > a { assert s[i] == right[i - a - 1]; }
    }
  }

  /** The anchored check is strictly stronger: "a@b@c.d" passes the unanchored check
      (it finds "b@c.d") and fails the anchored one (two '@'). */
  lemma StrictIsStricter()
    ensures LooseEmail("a@b@c.d")
    ensures !StrictEmail("a@b@c.d")
  {
    var s := "a@b@c.d";
    assert s[4..5] == "c";
    assert LooseMatchAt(s, 3, 5);
    forall a, d | 0 < a < |s| && 0 < d < |s| ensures !StrictMatchAt(s, a, d) {
      if a == 1 {
        assert s[a + 1..][1] == '@';
      } else if a == 3 {
        assert s[..a][1] == '@';
      }
    }
  }

  /** A mobile number is never mistaken for an e-mail address, by either check. */
  lemma MobileIsNotEmail(s: string)
    requires IranMobile(s)
    ensures !LooseEmail(s) && !StrictEmail(s)
  {
    forall a, d | 0 < a < |s| && 0 < d < |s| ensures !LooseMatchAt(s, a, d) {
      assert a == 1 || IsDecimalDigit(s[a]);
    }
    forall a, d | 0 < a < |s| && 0 < d < |s| ensures !StrictMatchAt(s, a, d) {
      assert a == 1 || IsDecimalDigit(s[a]);
    }
  }
}
