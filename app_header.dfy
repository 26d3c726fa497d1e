/**
 * components/AppHeader/index.tsx: `getInitials(user?.name || undefined,
 * user?.email || undefined)`, the avatar text of the header. A name gives
 * the first letters of its first and last words (one letter for one word);
 * otherwise the address gives its first letter; otherwise '?'. Each
 * letter is upper-cased as `toUpperCase` does, so one letter may give two
 * ("ß" gives "SS").
 */
module AppHeader {
  import opened Wrappers
  import opened Text
  import opened JsValues

  /**
   * getInitials(name, email); an empty string counts as absent, as
   * `|| undefined` makes it. At most two letters are taken, and in the
   * model, whose case mapping covers characters up to U+00FF, each
   * upper-cases to at most two characters.
   */
  function Initials(name: Option<string>, email: Option<string>): (r: string)
    ensures |r| <= 4
  {
    if Truthy(name) then
      var parts := SplitWs(Trim(name.value));
      if |parts| == 1 then Upper(FirstChar(parts[0]))
      else Upper(FirstChar(parts[0]) + FirstChar(parts[|parts| - 1]))
    else if Truthy(email) then Upper(FirstChar(email.value))
    else "?"
  }

  // ---------------------------------------------------------------------
  // Properties

  /** The first piece of a trimmed, non-blank name starts with the name's first character. */
  lemma FirstPiece(t: string)
    requires t != [] && !IsSpace(t[0])
    ensures SplitWs(t)[0] != [] && SplitWs(t)[0][0] == t[0]
  {
    assert "" + [t[0]] == [t[0]];
    assert SplitAcc("", t) == SplitAcc([t[0]], t[1..]);
    SplitAccFirst([t[0]], t[1..]);
  }

  /** The trim of a non-blank name starts and ends with a non-space character. */
  lemma TrimEnds(s: string)
    requires Trim(s) != ""
    ensures !IsSpace(Trim(s)[0]) && !IsSpace(Trim(s)[|Trim(s)| - 1])
  {
    var t := TrimStart(s);
    assert Trim(s) == t[..|Trim(s)|];
    assert Trim(s)[0] == t[0];
  }

  /** A one-word name gives its first character, upper-cased. */
  lemma OneWord(name: string, email: Option<string>)
    requires name != "" && Trim(name) != "" && NoSpace(Trim(name))
    ensures Initials(Some(name), email) == UpperOf(Trim(name)[0])
  {
    var t := Trim(name);
    SplitAccNoSpace("", t);
    assert "" + t == t;
    assert FirstChar(t) == [t[0]];
    UpperOfFew(t[0], t[0]);
  }

  /**
   * A name of several words gives the first characters of the first and
   * the last word, upper-cased; `t[k..]` is the last word, after the last
   * white space of the trimmed name `t`.
   */
  lemma SeveralWords(name: string, email: Option<string>, k: nat)
    requires name != "" && 0 < k < |Trim(name)|
    requires IsSpace(Trim(name)[k - 1]) && NoSpace(Trim(name)[k..])
    ensures Initials(Some(name), email) == UpperOf(Trim(name)[0]) + UpperOf(Trim(name)[k])
  {
    var t := Trim(name);
    TrimEnds(name);
    FirstAndLast(t, k);
    PairInitials(SplitWs(t), t[0], t[k]);
  }

  /** Two initials upper-case one after the other. */
  lemma PairInitials(parts: seq<string>, x: char, y: char)
    requires |parts| >= 2 && FirstChar(parts[0]) == [x] && FirstChar(parts[|parts| - 1]) == [y]
    ensures Upper(FirstChar(parts[0]) + FirstChar(parts[|parts| - 1])) == UpperOf(x) + UpperOf(y)
  {
    UpperConcat([x], [y]);
    UpperOfFew(x, y);
    UpperOfFew(y, x);
  }

  /** The first characters of the first and the last word of a text `t` whose last word is `t[k..]`. */
  lemma FirstAndLast(t: string, k: nat)
    requires 0 < k < |t| && !IsSpace(t[0]) && IsSpace(t[k - 1]) && NoSpace(t[k..])
    ensures |SplitWs(t)| >= 2
    ensures FirstChar(SplitWs(t)[0]) == [t[0]] && FirstChar(SplitWs(t)[|SplitWs(t)| - 1]) == [t[k]]
  {
    FirstPiece(t);
    var parts := SplitWs(t);
    assert parts == SplitAcc("", t);
    SplitAccLast("", t, k);
    assert parts[|parts| - 1] == t[k..];
    assert FirstChar(parts[0]) == [t[0]] && FirstChar(t[k..]) == [t[k]];
  }

  /** A name of white space only is present but has no letters: the result is empty, and the address is not consulted. */
  lemma BlankName(name: string, email: Option<string>)
    requires name != "" && Trim(name) == ""
    ensures Initials(Some(name), email) == ""
  {
  }

  /** Without a name the address's first character is used, upper-cased; without either the result is '?'. */
  lemma NoName(email: Option<string>)
    ensures Initials(None, email) == Initials(Some(""), email)
    ensures Truthy(email) ==> Initials(None, email) == UpperOf(email.value[0])
    ensures !Truthy(email) ==> Initials(None, email) == "?"
  {
    if Truthy(email) {
      UpperOfFew(email.value[0], email.value[0]);
    }
  }
}
