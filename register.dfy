/**
 * The registration controller: an ordered validation of the submitted form
 * (model state, then password confirmation, then duplicate email), then user
 * creation, and only on success a token minted for the new user and written
 * to the auth cookie.
 */
module Register {
  import opened Wrappers
  import opened Identity
  import opened Mvc

  const PasswordMismatch: string := "Passwords do not match"
  const EmailTaken: string := "Email already registered"

  /** An early answer of Register, with the ModelState entry it records, if any. */
  datatype Rejection = Rejection(result: ActionResult, entry: Option<ModelError>)

  /**
   * The validation chain, in source order. `modelValid` is ModelState.IsValid
   * before the action runs; None means the form passed every check.
   */
  function Screen(modelValid: bool, model: RegisterViewModel, users: Store): (r: Option<Rejection>)
    ensures r.None? <==>
              modelValid && model.password == model.confirmPassword && !EmailRegistered(users, model.email)
    ensures !modelValid ==> r == Some(Rejection(View("Index", EmptyRegisterForm), None))
    // the password check comes before the lookup: its answer mentions no store
    ensures modelValid && model.password != model.confirmPassword ==>
              r == Some(Rejection(BadRequest(PasswordMismatch), Some(ModelError("ConfirmPassword", PasswordMismatch))))
    ensures modelValid && model.password == model.confirmPassword && EmailRegistered(users, model.email) ==>
              r == Some(Rejection(BadRequest(EmailTaken), Some(ModelError("Email", EmailTaken))))
  {
    if !modelValid then
      Some(Rejection(View("Index", EmptyRegisterForm), None))
    else if model.password != model.confirmPassword then
      Some(Rejection(BadRequest(PasswordMismatch), Some(ModelError("ConfirmPassword", PasswordMismatch))))
    else if EmailRegistered(users, model.email) then
      Some(Rejection(BadRequest(EmailTaken), Some(ModelError("Email", EmailTaken))))
    else
      None
  }

  /** The record CreateAsync stores for `new User(email)` under the id it was given. */
  function NewUser(id: Uid, email: string): UserRec
  {
    UserRec(id, email, Upper(email), InitialVersion)
  }

  /** The ModelState entries for a list of identity errors: their descriptions, keyed by the whole model. */
  function ErrorEntries(errors: seq<IdentityError>): seq<ModelError>
  {
    var ds := Descriptions(errors);
    seq(|ds|, i requires 0 <= i < |ds| => ModelError("", ds[i]))
  }

  function EntryOf(r: Rejection): seq<ModelError>
  {
    if r.entry.Some? then [r.entry.value] else []
  }

  /**
   * One request's view of the collaborators: the identity store, the browser's
   * cookie jar (the request's cookies when the action starts, the jar the
   * browser keeps once it has applied the response when it ends), and the
   * ModelState errors the model binder recorded.
   */
  class RegisterController {
    var users: Store
    var cookies: CookieJar
    var modelState: seq<ModelError>

    ghost predicate Valid()
      reads this
    {
      WellKeyed(users)
    }

    constructor (users: Store, cookies: CookieJar, modelState: seq<ModelError>)
      requires WellKeyed(users)
      ensures Valid()
      ensures this.users == users && this.cookies == cookies && this.modelState == modelState
    {
      this.users := users;
      this.cookies := cookies;
      this.modelState := modelState;
    }

    /**
     * Registers `model`. `newId` is the id the new user object was given and
     * `created` what CreateAsync answers.
     */
    method Register(model: RegisterViewModel, newId: Uid, created: IdentityResult, now: int) returns (r: ActionResult)
      requires Valid()
      requires newId !in users
      modifies this
      ensures Valid()
      ensures var s := Screen(old(modelState) == [], model, old(users));
              s.Some? ==>
                && r == s.value.result
                && users == old(users) && cookies == old(cookies)
                && modelState == old(modelState) + EntryOf(s.value)
      ensures Screen(old(modelState) == [], model, old(users)).None? && !created.succeeded ==>
                && r == StatusCode(500, modelState)
                && users == old(users) && cookies == old(cookies)
                && modelState == old(modelState) + ErrorEntries(created.errors)
      ensures Screen(old(modelState) == [], model, old(users)).None? && created.succeeded ==>
                && r == Redirect("/Account")
                && users == old(users)[newId := NewUser(newId, model.email)]
                && cookies == old(cookies)[TokenCookie := AuthCookie(MkToken(newId, InitialVersion), now)]
                && modelState == old(modelState)
      // on success the browser is signed in as the new user for thirty days
      ensures Screen(old(modelState) == [], model, old(users)).None? && created.succeeded ==>
                forall at :: now <= at < now + ThirtyDays ==> SignedInAs(cookies, users, at) == Some(newId)
      // the cookie is written on the success path only
      ensures cookies != old(cookies) ==> r == Redirect("/Account")
      ensures Normalized(old(users)) ==> Normalized(users)
      ensures UniqueEmails(old(users)) ==> UniqueEmails(users)
    {
      var rejection := Screen(modelState == [], model, users);
      if rejection.Some? {
        modelState := modelState + EntryOf(rejection.value);
        return rejection.value.result;
      }
      var newUser := NewUser(newId, model.email);
      if !created.succeeded {
        var i := 0;
        while i < |created.errors|
          invariant 0 <= i <= |created.errors|
          invariant modelState == old(modelState) + ErrorEntries(created.errors[..i])
          invariant users == old(users) && cookies == old(cookies)
        {
          modelState := modelState + [ModelError("", created.errors[i].description)];
          i := i + 1;
        }
        assert created.errors[..i] == created.errors;
        return StatusCode(500, modelState);
      }
      if UniqueEmails(users) {
        NewUserKeepsEmailsUnique(users, newId, model.email);
      }
      users := users[newId := newUser];
      var token := MkToken(newUser.id, newUser.version);
      ghost var jar, before := cookies, users;
      cookies := cookies[TokenCookie := AuthCookie(token, now)];
      forall at | now <= at < now + ThirtyDays
        ensures SignedInAs(cookies, users, at) == Some(newId)
      {
        RegisterSignsIn(before, jar, newId, model.email, model.email, now, at);
      }
      r := Redirect("/Account");
    }
  }

  // ----- properties of registration -----

  /** Adding a user whose email is not registered keeps normalised emails unique. */
  lemma NewUserKeepsEmailsUnique(users: Store, id: Uid, email: string)
    requires UniqueEmails(users)
    requires id !in users
    requires !EmailRegistered(users, email)
    ensures UniqueEmails(users[id := NewUser(id, email)])
  {
    var after := users[id := NewUser(id, email)];
    forall j, k | j in after && k in after && after[j].normalizedEmail == after[k].normalizedEmail
      ensures j == k
    {
      if j != id && k != id {
        assert users[j].normalizedEmail == users[k].normalizedEmail;
      }
    }
  }

  /** A mismatched confirmation is answered without regard to the store's contents. */
  lemma PasswordCheckPrecedesLookup(model: RegisterViewModel, users: Store, users': Store)
    requires model.password != model.confirmPassword
    ensures Screen(true, model, users) == Screen(true, model, users')
  {
  }

  /**
   * In a normalised store, an email that matches a registered one up to letter
   * case is rejected as already registered.
   */
  lemma DuplicateIgnoresCase(model: RegisterViewModel, users: Store, k: Uid)
    requires Normalized(users)
    requires k in users
    requires EqualIgnoringCase(users[k].email, model.email)
    requires model.password == model.confirmPassword
    ensures Screen(true, model, users) == Some(Rejection(BadRequest(EmailTaken), Some(ModelError("Email", EmailTaken))))
  {
    FoundIgnoringCase(users, k, model.email);
  }

  /**
   * After a successful registration the browser is signed in as the new user
   * for thirty days, and the new user is found by any case variant of the email.
   */
  lemma RegisterSignsIn(users: Store, jar: CookieJar, id: Uid, email: string, probe: string, now: int, at: int)
    requires now <= at < now + ThirtyDays
    ensures var after := users[id := NewUser(id, email)];
            var jar' := jar[TokenCookie := AuthCookie(MkToken(id, InitialVersion), now)];
            && SignedInAs(jar', after, at) == Some(id)
            && (EqualIgnoringCase(email, probe) ==> EmailRegistered(after, probe))
  {
    var after := users[id := NewUser(id, email)];
    AuthCookieRoundTrip(jar, MkToken(id, InitialVersion), now, at);
    if EqualIgnoringCase(email, probe) {
      UpperIgnoresCase(email, probe);
      assert after[id].normalizedEmail == Upper(probe);
    }
  }
}
