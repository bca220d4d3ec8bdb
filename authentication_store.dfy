/** The authentication store: an optional token, an email with its spaces
    stripped, the derived "authenticated" flag and email validation message. */
module AuthenticationStore {
  import opened Js

  /** A character the regular-expression class `\s` matches: the ECMAScript
      white-space and line-terminator code points. */
  predicate IsJsWhitespace(c: char) {
    var n := c as int;
    (0x09 <= n <= 0x0D) || n == 0x20 || n == 0xA0 || n == 0x1680
    || (0x2000 <= n <= 0x200A) || n == 0x2028 || n == 0x2029 || n == 0x202F
    || n == 0x205F || n == 0x3000 || n == 0xFEFF
  }

  /** Every character is in the class `[^\s@]`. */
  predicate NoSpaceOrAt(s: string) {
    forall k :: 0 <= k < |s| ==> !IsJsWhitespace(s[k]) && s[k] != '@'
  }

  /** `s` splits as `local@domain.tld` with the `@` at `i` and the `.` at `j`,
      each of the three parts non-empty and in `[^\s@]+`. */
  ghost predicate MatchesAt(s: string, i: int, j: int)
    ensures MatchesAt(s, i, j) ==> 0 < i && i + 1 < j < |s| - 1 && s == s[..i] + "@" + s[i + 1..j] + "." + s[j + 1..]
  {
    0 < i && i + 1 < j < |s| - 1 && s[i] == '@' && s[j] == '.'
    && NoSpaceOrAt(s[..i]) && NoSpaceOrAt(s[i + 1..j]) && NoSpaceOrAt(s[j + 1..])
  }

  /** The language of `/^[^\s@]+@[^\s@]+\.[^\s@]+$/`. */
  ghost predicate EmailShape(s: string)
    ensures EmailShape(s) ==> |s| >= 5 && '@' in s && '.' in s
  {
    exists i, j :: MatchesAt(s, i, j)
  }

  /** A dot with at least one character on each side. */
  predicate HasInnerDot(d: string) {
    exists j :: 0 < j < |d| - 1 && d[j] == '.'
  }

  /** The pattern test as a direct check: the first `@` splits off a non-empty
      local part, and the rest has no `@` or white space and an inner dot. */
  predicate IsEmailAddress(s: string)
    ensures IsEmailAddress(s) ==> |s| >= 5
    ensures IsEmailAddress(s) ==> forall k :: 0 <= k < |s| && s[k] == '@' ==> k == FirstIndexOf(s, '@')
  {
    var i := FirstIndexOf(s, '@');
    0 < i < |s| && NoSpaceOrAt(s[..i]) && NoSpaceOrAt(s[i + 1..]) && HasInnerDot(s[i + 1..])
  }

  lemma NoSpaceOrAtConcat(x: string, y: string)
    ensures NoSpaceOrAt(x + y) <==> NoSpaceOrAt(x) && NoSpaceOrAt(y)
  {
    if NoSpaceOrAt(x + y) {
      assert forall k :: 0 <= k < |x| ==> x[k] == (x + y)[k];
      assert forall k :: 0 <= k < |y| ==> y[k] == (x + y)[|x| + k];
    }
  }

  /** A direct-check success splits at the first `@` and at the inner dot. */
  lemma {:induction false} IsEmailAddressHasShape(s: string)
    requires IsEmailAddress(s)
    ensures EmailShape(s)
  {
    var i := FirstIndexOf(s, '@');
    var d := s[i + 1..];
    var j :| 0 < j < |d| - 1 && d[j] == '.';
    assert d == d[..j] + d[j..];
    NoSpaceOrAtConcat(d[..j], d[j..]);
    assert d[j..] == [d[j]] + d[j + 1..];
    NoSpaceOrAtConcat([d[j]], d[j + 1..]);
    assert s[i + 1..i + 1 + j] == d[..j];
    assert s[i + 1 + j + 1..] == d[j + 1..];
    assert MatchesAt(s, i, i + 1 + j);
  }

  /** A pattern match passes the direct check: its `@` is the first one. */
  lemma {:induction false} ShapeIsEmailAddress(s: string, i: int, j: int)
    requires MatchesAt(s, i, j)
    ensures IsEmailAddress(s)
  {
    assert s == s[..i] + [s[i]] + s[i + 1..];
    assert '@' !in s[..i];
    FirstIndexOfAfterPrefix(s[..i], '@', s[i + 1..]);
    var d := s[i + 1..];
    assert d == s[i + 1..j] + [s[j]] + s[j + 1..];
    NoSpaceOrAtConcat(s[i + 1..j], [s[j]]);
    NoSpaceOrAtConcat(s[i + 1..j] + [s[j]], s[j + 1..]);
    assert d[j - (i + 1)] == '.';
  }

  /** The direct check decides exactly the language of the pattern. */
  lemma IsEmailAddressMatchesPattern(s: string)
    ensures IsEmailAddress(s) <==> EmailShape(s)
  {
    if IsEmailAddress(s) {
      IsEmailAddressHasShape(s);
    }
    if EmailShape(s) {
      var i, j :| MatchesAt(s, i, j);
      ShapeIsEmailAddress(s, i, j);
    }
  }

  const BlankEmail := "can't be blank"
  const ShortEmail := "must be at least 6 characters"
  const InvalidEmail := "must be a valid email address"

  /** The validation message, checked in order: blank, short, malformed. */
  function ValidationErrorOf(email: string): (r: string)
    ensures |email| == 0 <==> r == BlankEmail
    ensures 0 < |email| < 6 <==> r == ShortEmail
    ensures r == InvalidEmail <==> |email| >= 6 && !IsEmailAddress(email)
  {
    if |email| == 0 then BlankEmail
    else if |email| < 6 then ShortEmail
    else if !IsEmailAddress(email) then InvalidEmail
    else ""
  }

  /** An email is accepted exactly when it is at least six characters long and
      in the language of the pattern. */
  lemma ValidationErrorEmptyIff(email: string)
    ensures ValidationErrorOf(email) == "" <==> |email| >= 6 && EmailShape(email)
  {
    IsEmailAddressMatchesPattern(email);
  }

  /** `value.replace(/ /g, '')`: only U+0020 is removed; tabs and other white
      space are kept. */
  function RemoveSpaces(s: string): (r: string)
    ensures ' ' !in r
    ensures |r| <= |s|
  {
    if s == [] then []
    else if s[0] == ' ' then RemoveSpaces(s[1..])
    else [s[0]] + RemoveSpaces(s[1..])
  }

  lemma {:induction false} RemoveSpacesConcat(a: string, b: string)
    ensures RemoveSpaces(a + b) == RemoveSpaces(a) + RemoveSpaces(b)
  {
    if a != [] {
      assert (a + b)[0] == a[0] && (a + b)[1..] == a[1..] + b;
      RemoveSpacesConcat(a[1..], b);
    } else {
      assert a + b == b;
    }
  }

  /** A string without spaces is left as it is. */
  lemma {:induction false} RemoveSpacesIdentity(s: string)
    requires ' ' !in s
    ensures RemoveSpaces(s) == s
  {
    if s != [] {
      assert s == [s[0]] + s[1..];
      RemoveSpacesIdentity(s[1..]);
    }
  }

  /** Stripping is idempotent. */
  lemma RemoveSpacesIdempotent(s: string)
    ensures RemoveSpaces(RemoveSpaces(s)) == RemoveSpaces(s)
  {
    RemoveSpacesIdentity(RemoveSpaces(s));
  }

  /** Nothing but spaces is removed: every other character keeps its count. */
  lemma {:induction false} RemoveSpacesKeepsOthers(s: string)
    ensures multiset(RemoveSpaces(s)) + multiset(seq(multiset(s)[' '], _ => ' ')) == multiset(s)
  {
    if s != [] {
      assert s == [s[0]] + s[1..];
      RemoveSpacesKeepsOthers(s[1..]);
      var n := multiset(s[1..])[' '];
      if s[0] == ' ' {
        assert seq(n + 1, _ => ' ') == [' '] + seq(n, _ => ' ');
      }
    }
  }

  class AuthenticationStore {
    var authToken: Option<string>
    var authEmail: string

    constructor()
      ensures authToken.None? && authEmail == ""
    {
      authToken := None;
      authEmail := "";
    }

    /** `!!authToken`: an empty token does not authenticate. */
    predicate IsAuthenticated()
      reads this
      ensures IsAuthenticated() ==> authToken.Some?
      ensures authToken == Some("") ==> !IsAuthenticated()
      ensures authToken.Some? && |authToken.value| > 0 ==> IsAuthenticated()
    {
      authToken.Some? && authToken.value != ""
    }

    /** The store's message for its email: empty exactly when the email is
        long enough and matches the pattern. */
    function ValidationError(): (r: string)
      reads this
      ensures r in {"", BlankEmail, ShortEmail, InvalidEmail}
      ensures r == "" <==> |authEmail| >= 6 && EmailShape(authEmail)
    {
      IsEmailAddressMatchesPattern(authEmail);
      ValidationErrorOf(authEmail)
    }

    /** `None` stands for `undefined`, which clears the token. */
    method SetAuthToken(value: Option<string>)
      modifies this
      ensures authToken == value && authEmail == old(authEmail)
      ensures IsAuthenticated() <==> value.Some? && value.value != ""
    {
      authToken := value;
    }

    method SetAuthEmail(value: string)
      modifies this
      ensures authEmail == RemoveSpaces(value) && authToken == old(authToken)
      ensures ' ' !in authEmail
    {
      authEmail := RemoveSpaces(value);
    }

    method Logout()
      modifies this
      ensures authToken.None? && authEmail == ""
      ensures !IsAuthenticated() && ValidationError() == BlankEmail
    {
      authToken := None;
      authEmail := "";
    }
  }
}
