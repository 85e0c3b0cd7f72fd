/** The requester check in the `home` view (views.py:64-67): the form is accepted only when the
    last seven characters of the email address, lower-cased, are "gao.gov". */
module Access {
  import opened Text

  const Domain: string := "gao.gov"

  /** `email[-7:]`: the last seven characters, or the whole address when it is shorter. */
  function LastSeven(email: string): (r: string)
    ensures |r| == if |email| < 7 then |email| else 7
    ensures EndsWith(email, r)
  {
    if |email| < 7 then email else email[|email| - 7..]
  }

  /** `email[-7:].lower() == 'gao.gov'`. */
  predicate GaoEmail(email: string) {
    Lower(LastSeven(email)) == Domain
  }

  /** The check holds exactly when the address is at least seven characters long and its last
      seven are "gao.gov" in any mix of upper and lower case. */
  lemma GaoEmailExactly(email: string)
    ensures GaoEmail(email) <==>
      |email| >= 7 && forall k :: 0 <= k < 7 ==> LowerChar(email[|email| - 7 + k]) == Domain[k]
  {
    var tail := LastSeven(email);
    var low := Lower(tail);
    if |email| >= 7 {
      assert forall k :: 0 <= k < 7 ==> tail[k] == email[|email| - 7 + k];
      if forall k :: 0 <= k < 7 ==> LowerChar(email[|email| - 7 + k]) == Domain[k] {
        assert forall k :: 0 <= k < 7 ==> low[k] == Domain[k];
      }
    }
  }

  /** Any address ending in "gao.gov" passes, whatever stands before it: the check does not
      require the "@" of the domain, so "x@notgao.gov" is accepted as a GAO address. */
  lemma AnyPrefixAccepted(prefix: string)
    ensures GaoEmail(prefix + Domain)
  {
    var email := prefix + Domain;
    forall k | 0 <= k < 7 ensures LowerChar(email[|email| - 7 + k]) == Domain[k] {
      assert email[|email| - 7 + k] == Domain[k];
    }
    GaoEmailExactly(email);
  }

  /** The case of the domain does not matter. */
  lemma UpperCaseAccepted(prefix: string, suffix: string)
    requires |suffix| == 7 && forall k :: 0 <= k < 7 ==> LowerChar(suffix[k]) == Domain[k]
    ensures GaoEmail(prefix + suffix)
  {
    var email := prefix + suffix;
    forall k | 0 <= k < 7 ensures LowerChar(email[|email| - 7 + k]) == Domain[k] {
      assert email[|email| - 7 + k] == suffix[k];
    }
    GaoEmailExactly(email);
  }

  /** An address shorter than seven characters is refused. */
  lemma ShortRefused(email: string)
    requires |email| < 7
    ensures !GaoEmail(email)
  {
    assert |Lower(LastSeven(email))| < 7;
  }
}
