/**
 * The account controller: the signed-in user's page, account deletion, logout,
 * and the email change that re-stamps the user's version and so revokes every
 * session token issued before it.
 */
module Account {
  import opened Wrappers
  import opened Identity
  import opened Mvc

  datatype EmailBody = EmailBody(email: string)

  /** The record ChangeEmail stages: new email, its normalised form, version one higher. */
  function Restamp(u: UserRec, email: string): UserRec
  {
    u.(email := email, normalizedEmail := Upper(email), version := u.version + 1)
  }

  /**
   * One request's view of the controller's collaborators: the identity store
   * (`users`) and the browser's cookie jar (`cookies`), which holds the
   * request's cookies when the action starts and, when it ends, the jar the
   * browser keeps once it has applied the response's cookies.
   */
  class AccountController {
    var users: Store
    var cookies: CookieJar

    ghost predicate Valid()
      reads this
    {
      WellKeyed(users)
    }

    constructor (users: Store, cookies: CookieJar)
      requires WellKeyed(users)
      ensures Valid()
      ensures this.users == users && this.cookies == cookies
    {
      this.users := users;
      this.cookies := cookies;
    }

    /** The account page of user `uid`, or the not-found page when the user is gone. */
    method Index(uid: Uid) returns (r: ActionResult)
      requires Valid()
      ensures r.View? <==> uid in users
      ensures uid in users ==> r == View("Index", AccountViewModel(uid, users[uid].email))
      ensures uid !in users ==> r == RedirectToAction("NotFoundPage", "Home")
    {
      if uid !in users {
        return RedirectToAction("NotFoundPage", "Home");
      }
      var user := users[uid];
      r := View("Index", AccountViewModel(user.id, user.email));
    }

    /**
     * Deletes user `uid`; `result` is what the store's DeleteAsync answers.
     * The store loses the user only when the deletion succeeded; cookies are never
     * touched, yet the browser's cookie no longer signs anyone in as that user.
     */
    method ConfirmDelete(uid: Uid, result: IdentityResult) returns (r: ActionResult)
      requires Valid()
      modifies this`users
      ensures Valid()
      ensures uid !in old(users) ==> r == Redirect("/") && users == old(users)
      ensures uid in old(users) && result.succeeded ==> r == Redirect("/") && users == old(users) - {uid}
      ensures uid in old(users) && !result.succeeded ==>
                r == View("Delete", DeleteViewModel(Descriptions(result.errors))) && users == old(users)
      ensures uid in old(users) && result.succeeded ==>
                forall at :: SignedInAs(cookies, users, at) != Some(uid)
    {
      if uid !in users {
        return Redirect("/");
      }
      if result.succeeded {
        users := users - {uid};
        return Redirect("/");
      }
      r := View("Delete", DeleteViewModel(Descriptions(result.errors)));
    }

    /**
     * Drops the token cookie, so this browser is signed in as nobody; the store,
     * and so every other browser's session, is left as it is.
     */
    method Logout() returns (r: ActionResult)
      modifies this`cookies
      ensures cookies == old(cookies) - {TokenCookie}
      ensures forall at :: SignedInAs(cookies, users, at) == None
      ensures r == Redirect("/")
    {
      cookies := cookies - {TokenCookie};
      r := Redirect("/");
    }

    /** Sets the token cookie, HttpOnly and Secure, expiring 30 days after `now`. */
    method AddAuthCookie(token: Token, now: int)
      modifies this`cookies
      ensures cookies == old(cookies)[TokenCookie := AuthCookie(token, now)]
      ensures cookies[TokenCookie].value == token
      ensures cookies[TokenCookie].httpOnly && cookies[TokenCookie].secure
      ensures cookies[TokenCookie].expires == now + ThirtyDays
    {
      cookies := cookies[TokenCookie := AuthCookie(token, now)];
    }

    /**
     * Changes the email of user `uid` to `body.email` and bumps the version;
     * `saved` is whether the store committed the change. Only on a commit is a
     * token for the new version minted and written to the cookie.
     */
    method ChangeEmail(uid: Uid, body: EmailBody, saved: bool, now: int) returns (r: ActionResult)
      requires Valid()
      modifies this
      ensures Valid()
      ensures uid !in old(users) ==>
                r == Redirect("/") && users == old(users) && cookies == old(cookies)
      ensures uid in old(users) && !saved ==>
                r == Redirect("/Account") && users == old(users) && cookies == old(cookies)
      ensures uid in old(users) && saved ==>
                && r == Redirect("/Account")
                && users == old(users)[uid := Restamp(old(users)[uid], body.email)]
                && cookies == old(cookies)[TokenCookie := AuthCookie(MkToken(uid, old(users)[uid].version + 1), now)]
      // the browser is signed in with the new token for thirty days; the token it held
      // before the change, and every copy of it elsewhere, signs in as nobody
      ensures uid in old(users) && saved ==>
                forall at :: now <= at < now + ThirtyDays ==> SignedInAs(cookies, users, at) == Some(uid)
      ensures uid in old(users) && saved ==>
                forall jar: CookieJar, at: int :: SessionToken(jar, at) == Some(MkToken(uid, old(users)[uid].version)) ==>
                  SignedInAs(jar, users, at) == None
      ensures forall k :: k in old(users) && k != uid ==> k in users && users[k] == old(users)[k]
      ensures forall k :: k in old(users) ==> k in users && users[k].version >= old(users)[k].version
      ensures Normalized(old(users)) ==> Normalized(users)
    {
      if uid !in users {
        return Redirect("/");
      }
      var user := users[uid];
      user := user.(email := body.email, normalizedEmail := Upper(body.email), version := user.version + 1);
      if !saved {
        return Redirect("/Account");
      }
      ghost var jar, before := cookies, users;
      users := users[uid := user];
      var token := MkToken(user.id, user.version);
      AddAuthCookie(token, now);
      forall at | now <= at < now + ThirtyDays
        ensures SignedInAs(cookies, users, at) == Some(uid)
      {
        ChangeEmailSession(before, jar, uid, body.email, now, at);
      }
      r := Redirect("/Account");
    }
  }

  // ----- what the state changes mean for sessions -----

  /**
   * After a committed email change, no token minted for that user at any earlier
   * version is current, the newly minted one is, and other users' tokens keep
   * their standing.
   */
  lemma ChangeEmailRevokes(users: Store, uid: Uid, email: string, t: Token)
    requires uid in users
    ensures var after := users[uid := Restamp(users[uid], email)];
            && (t.uid == uid && t.version <= users[uid].version ==> !Current(t, after))
            && Current(MkToken(uid, users[uid].version + 1), after)
            && (t.uid != uid ==> (Current(t, after) <==> Current(t, users)))
  {
  }

  /**
   * After a committed email change the user is found by exactly the case
   * variants of the new email.
   */
  lemma ChangeEmailFindable(users: Store, uid: Uid, email: string, probe: string)
    requires uid in users
    ensures var after := users[uid := Restamp(users[uid], email)];
            after[uid].normalizedEmail == Upper(probe) <==> EqualIgnoringCase(email, probe)
  {
    UpperIgnoresCase(email, probe);
  }

  /**
   * The browser that made a committed email change is signed in as that user
   * for thirty days, while any cookie jar still presenting the token from
   * before the change is signed in as nobody.
   */
  lemma ChangeEmailSession(users: Store, jar: CookieJar, uid: Uid, email: string, now: int, at: int)
    requires uid in users
    requires now <= at < now + ThirtyDays
    ensures var after := users[uid := Restamp(users[uid], email)];
            var jar' := jar[TokenCookie := AuthCookie(MkToken(uid, users[uid].version + 1), now)];
            && SignedInAs(jar', after, at) == Some(uid)
            && (SessionToken(jar, at) == Some(MkToken(uid, users[uid].version)) ==> SignedInAs(jar, after, at) == None)
  {
    AuthCookieRoundTrip(jar, MkToken(uid, users[uid].version + 1), now, at);
  }

  /**
   * ChangeEmail does not consult the other records, so unlike Register it can
   * leave two users with the same normalised email.
   */
  lemma ChangeEmailMayShareEmail()
    ensures var users := map["u" := UserRec("u", "a@x.com", "A@X.COM", 0),
                             "v" := UserRec("v", "b@x.com", "B@X.COM", 0)];
            UniqueEmails(users) && !UniqueEmails(users["u" := Restamp(users["u"], "B@x.com")])
  {
    var users := map["u" := UserRec("u", "a@x.com", "A@X.COM", 0),
                     "v" := UserRec("v", "b@x.com", "B@X.COM", 0)];
    assert users["u"].normalizedEmail != users["v"].normalizedEmail by {
      assert users["u"].normalizedEmail[0] != users["v"].normalizedEmail[0];
    }
    var after := users["u" := Restamp(users["u"], "B@x.com")];
    assert after["u"].normalizedEmail == after["v"].normalizedEmail;
  }
}
