/**
 * The identity store's user record, the session token, the auth cookie, and the
 * rules that tie them together: email normalisation, the version stamp that
 * makes a token current, and what the browser presents back from a cookie jar.
 */
module Identity {
  import opened Wrappers

  type Uid = string

  /** Version a freshly created user starts with. */
  const InitialVersion: nat := 0

  /** Lifetime of the auth cookie, in seconds (30 days). */
  const ThirtyDays: int := 30 * 24 * 60 * 60

  /** Name of the cookie that carries the session token. */
  const TokenCookie: string := "token"

  /** The fields of a user record that the controllers read or write. */
  datatype UserRec = UserRec(id: Uid, email: string, normalizedEmail: string, version: nat)

  /** A signed token, treated as the opaque pair it is minted from. */
  datatype Token = MkToken(uid: Uid, version: nat)

  datatype Cookie = Cookie(value: Token, httpOnly: bool, secure: bool, expires: int)

  type Store = map<Uid, UserRec>
  type CookieJar = map<string, Cookie>

  /** Every record is stored under its own id, so a lookup by key is a query on Id. */
  ghost predicate WellKeyed(users: Store)
  {
    forall k :: k in users ==> users[k].id == k
  }

  /** Every record's normalised email is the upper-cased form of its email. */
  ghost predicate Normalized(users: Store)
  {
    forall k :: k in users ==> users[k].normalizedEmail == Upper(users[k].email)
  }

  /** No two records share a normalised email. */
  ghost predicate UniqueEmails(users: Store)
  {
    forall j, k :: j in users && k in users && users[j].normalizedEmail == users[k].normalizedEmail ==> j == k
  }

  // ----- upper-casing (ASCII letters only) -----

  predicate IsAsciiLower(c: char)
  {
    'a' <= c <= 'z'
  }

  function UpperChar(c: char): char
  {
    if IsAsciiLower(c) then (c as int - 32) as char else c
  }

  /** The upper-cased form of an email, as stored in the normalised-email column. */
  function Upper(s: string): (r: string)
    ensures |r| == |s|
    ensures forall i :: 0 <= i < |s| ==> r[i] == UpperChar(s[i])
  {
    if s == [] then [] else [UpperChar(s[0])] + Upper(s[1..])
  }

  /** Two characters are the same letter up to ASCII case (an independent definition). */
  predicate SameIgnoringCase(x: char, y: char)
  {
    x == y
    || (IsAsciiLower(x) && y as int == x as int - 32)
    || (IsAsciiLower(y) && x as int == y as int - 32)
  }

  predicate EqualIgnoringCase(a: string, b: string)
  {
    |a| == |b| && forall i :: 0 <= i < |a| ==> SameIgnoringCase(a[i], b[i])
  }

  lemma UpperCharAgrees(x: char, y: char)
    ensures UpperChar(x) == UpperChar(y) <==> SameIgnoringCase(x, y)
  {
  }

  /** Normalisation identifies exactly the emails that differ only in letter case. */
  lemma UpperIgnoresCase(a: string, b: string)
    ensures Upper(a) == Upper(b) <==> EqualIgnoringCase(a, b)
  {
    if |a| == |b| {
      forall i | 0 <= i < |a|
        ensures UpperChar(a[i]) == UpperChar(b[i]) <==> SameIgnoringCase(a[i], b[i])
      {
        UpperCharAgrees(a[i], b[i]);
      }
      if EqualIgnoringCase(a, b) {
        assert forall i :: 0 <= i < |a| ==> Upper(a)[i] == Upper(b)[i];
      } else {
        var i :| 0 <= i < |a| && !SameIgnoringCase(a[i], b[i]);
        assert Upper(a)[i] != Upper(b)[i];
      }
    } else {
      assert |Upper(a)| != |Upper(b)|;
    }
  }

  /** Normalising an already normalised email changes nothing. */
  lemma UpperIdempotent(s: string)
    ensures Upper(Upper(s)) == Upper(s)
  {
    var u := Upper(s);
    forall i | 0 <= i < |s|
      ensures Upper(u)[i] == u[i]
    {
      assert !IsAsciiLower(u[i]);
    }
  }

  // ----- lookups -----

  /** What FindByEmailAsync finds: some record whose normalised email matches the probe's. */
  predicate EmailRegistered(users: Store, email: string)
  {
    exists k :: k in users && users[k].normalizedEmail == Upper(email)
  }

  /** An email lookup gives the same answer for every case variant of the email. */
  lemma RegisteredIgnoresCase(users: Store, e1: string, e2: string)
    requires EqualIgnoringCase(e1, e2)
    ensures EmailRegistered(users, e1) <==> EmailRegistered(users, e2)
  {
    UpperIgnoresCase(e1, e2);
  }

  /** A normalised store finds a record by email exactly when the email matches it up to case. */
  lemma FoundIgnoringCase(users: Store, k: Uid, probe: string)
    requires Normalized(users)
    requires k in users
    ensures users[k].normalizedEmail == Upper(probe) <==> EqualIgnoringCase(users[k].email, probe)
  {
    UpperIgnoresCase(users[k].email, probe);
  }

  // ----- tokens and cookies -----

  /** A token is current when it carries the version its user holds now; any bump revokes it. */
  predicate Current(t: Token, users: Store)
  {
    t.uid in users && users[t.uid].version == t.version
  }

  /** The auth cookie: HttpOnly, Secure, expiring 30 days after it is written. */
  function AuthCookie(t: Token, now: int): Cookie
  {
    Cookie(t, true, true, now + ThirtyDays)
  }

  /** The token a browser holding `jar` presents at time `at`: the token cookie, while unexpired. */
  function SessionToken(jar: CookieJar, at: int): Option<Token>
  {
    if TokenCookie in jar && at < jar[TokenCookie].expires then Some(jar[TokenCookie].value) else None
  }

  /** The user a request carrying `jar` at time `at` is authenticated as, if any. */
  function SignedInAs(jar: CookieJar, users: Store, at: int): Option<Uid>
  {
    match SessionToken(jar, at)
    case Some(t) => if Current(t, users) then Some(t.uid) else None
    case None => None
  }

  /** A freshly written auth cookie is presented back for exactly thirty days. */
  lemma AuthCookieRoundTrip(jar: CookieJar, t: Token, now: int, at: int)
    ensures SessionToken(jar[TokenCookie := AuthCookie(t, now)], at)
            == if at < now + ThirtyDays then Some(t) else None
  {
  }
}
