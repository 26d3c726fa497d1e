/**
 * The e-mail test both authentication screens run: `/\S+@\S+\.\S+/.test(s)`.
 * The pattern is not anchored, so it holds when some window of `s` is a
 * run of non-space characters, an '@', a run of non-space characters, a
 * '.' and a non-space character. Only the run between the '@' and the '.'
 * has to be wholly non-space; the outer runs can shrink to one character.
 */
module EmailRule {
  import opened Text

  /** A match with the '@' at `p` and the '.' at `q`. */
  predicate MatchAt(s: string, p: int, q: int) {
    1 <= p && p + 2 <= q && q + 1 < |s|
    && !IsSpace(s[p - 1]) && s[p] == '@'
    && (forall k | p < k < q :: !IsSpace(s[k]))
    && s[q] == '.' && !IsSpace(s[q + 1])
  }

  /** `/\S+@\S+\.\S+/.test(s)` */
  predicate LooksLikeEmail(s: string) {
    exists p, q | 0 <= p < |s| && 0 <= q < |s| :: MatchAt(s, p, q)
  }

  // ---------------------------------------------------------------------
  // Properties

  /** `s.includes(sub)` at a known position. */
  lemma {:induction false} ContainsAt(s: string, sub: string, i: nat)
    requires i + |sub| <= |s| && s[i..i + |sub|] == sub
    ensures Contains(s, sub)
    decreases i
  {
    if i > 0 {
      assert s[1..][i - 1..i - 1 + |sub|] == s[i..i + |sub|];
      ContainsAt(s[1..], sub, i - 1);
    }
  }

  /** Every address the pattern accepts contains an '@' and a '.'. */
  lemma MatchHasAtAndDot(s: string)
    requires LooksLikeEmail(s)
    ensures Contains(s, "@") && Contains(s, ".")
  {
    var p, q :| 0 <= p < |s| && 0 <= q < |s| && MatchAt(s, p, q);
    ContainsAt(s, "@", p);
    ContainsAt(s, ".", q);
  }

  /** The pattern is a test on a window: text around a match does not undo it. */
  lemma MatchSurvivesContext(a: string, s: string, b: string)
    requires LooksLikeEmail(s)
    ensures LooksLikeEmail(a + s + b)
  {
    var p, q :| 0 <= p < |s| && 0 <= q < |s| && MatchAt(s, p, q);
    var t := a + s + b;
    forall k | |a| + p < k < |a| + q ensures !IsSpace(t[k]) {
      assert t[k] == s[k - |a|];
    }
    assert MatchAt(t, |a| + p, |a| + q);
  }

  // ---------------------------------------------------------------------
  // Examples: single inputs checked against the pattern

  /** Example: the default account's address is accepted. */
  lemma DefaultAddressMatches()
    ensures LooksLikeEmail("usuario@email.com")
  {
    assert MatchAt("usuario@email.com", 7, 13);
  }

  /** Example: "usuario@email", with no '.' after the '@', is refused. */
  lemma NoDotRefused()
    ensures !LooksLikeEmail("usuario@email")
  {
    forall p, q | 0 <= p < 13 && 0 <= q < 13
      ensures !MatchAt("usuario@email", p, q)
    {
    }
  }

  /** Example: "a @b.c", with a space right before the '@', is refused; the pattern needs a non-space character there. */
  lemma SpaceBeforeAtRefused()
    ensures !LooksLikeEmail("a @b.c")
  {
    forall p, q | 0 <= p < 6 && 0 <= q < 6
      ensures !MatchAt("a @b.c", p, q)
    {
    }
  }
}
