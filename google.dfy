/**
 * The external-login callback: a chain of guards over what the identity
 * provider and the collaborators answer, ending in one of a fixed set of
 * results. The collaborators' answers are inputs; the callback also reports
 * which collaborator calls it made, in order.
 */
module Google {
  import opened Wrappers
  import opened Identity
  import opened Mvc

  /** What the provider's external login carries: the linked key and the email claim, if any. */
  datatype LoginInfo = LoginInfo(provider: string, providerKey: string, email: Option<string>)

  /** A call the callback makes on a collaborator. */
  datatype Call =
    | GetExternalLoginInfo
    | FindByEmail(email: string)
    | SignInUserWithExternal(uid: Uid)
    | CreateUserWithExternal(email: string)

  datatype Run = Run(result: ActionResult, calls: seq<Call>)

  const LoadInfoError: string := "Error loading external login information."
  const NoEmailError: string := "No email is found"
  const CreateUserError: string := "Error creating a new user."

  /** The callback reached its user lookup: no provider error, login info loaded, email claimed. */
  predicate ReachesLookup(remoteError: Option<string>, info: Option<LoginInfo>)
  {
    remoteError.None? && info.Some? && info.value.email.Some?
  }

  /**
   * The callback. `remoteError` is the provider's error report, `info` what
   * GetExternalLoginInfoAsync loads, `existing` what FindByEmailAsync finds for
   * the claimed email (taken on trust: it is not tied to a store here), and
   * `signedIn` / `created` the tokens GoogleService answers when linking an
   * existing user or creating a new one.
   */
  function Callback(remoteError: Option<string>, info: Option<LoginInfo>, existing: Option<UserRec>,
                    signedIn: Option<Token>, created: Option<Token>): (run: Run)
    // a provider error is answered before anything is asked of a collaborator
    ensures remoteError.Some? ==>
              run.result == BadRequest("Google error: " + remoteError.value) && run.calls == []
    // no login info, or no email claim: a client error, with nothing looked up or created
    ensures remoteError.None? && info.None? ==>
              run.result == BadRequest(LoadInfoError) && run.calls == [GetExternalLoginInfo]
    ensures remoteError.None? && info.Some? && info.value.email.None? ==>
              run.result == BadRequest(NoEmailError) && run.calls == [GetExternalLoginInfo]
    // the store is asked about the user exactly when the guards pass
    ensures (exists e :: FindByEmail(e) in run.calls) <==> ReachesLookup(remoteError, info)
    // an existing user is only signed in; the create path runs only for an unknown email, once
    ensures ReachesLookup(remoteError, info) && existing.Some? ==>
              run.calls == [GetExternalLoginInfo, FindByEmail(info.value.email.value),
                            SignInUserWithExternal(existing.value.id)]
    ensures forall e :: CreateUserWithExternal(e) in run.calls <==>
              ReachesLookup(remoteError, info) && existing.None? && e == info.value.email.value
    ensures ReachesLookup(remoteError, info) && existing.None? ==>
              run.calls == [GetExternalLoginInfo, FindByEmail(info.value.email.value),
                            CreateUserWithExternal(info.value.email.value)]
    // Ok carries the called service's token and the claimed email, unchanged
    ensures run.result.Ok? <==>
              ReachesLookup(remoteError, info) && (if existing.Some? then signedIn.Some? else created.Some?)
    ensures run.result.Ok? ==>
              && run.result.userInfo.email == info.value.email.value
              && Some(run.result.userInfo.token) == (if existing.Some? then signedIn else created)
    // a null token from the called service is a server problem
    ensures ReachesLookup(remoteError, info) && existing.Some? && signedIn.None? ==>
              run.result == Problem(None)
    ensures ReachesLookup(remoteError, info) && existing.None? && created.None? ==>
              run.result == Problem(Some(CreateUserError))
  {
    if remoteError.Some? then
      Run(BadRequest("Google error: " + remoteError.value), [])
    else if info.None? then
      Run(BadRequest(LoadInfoError), [GetExternalLoginInfo])
    else if info.value.email.None? then
      Run(BadRequest(NoEmailError), [GetExternalLoginInfo])
    else
      var email := info.value.email.value;
      var looked := [GetExternalLoginInfo, FindByEmail(email)];
      if existing.Some? then
        var calls := looked + [SignInUserWithExternal(existing.value.id)];
        if signedIn.None? then Run(Problem(None), calls)
        else Run(Ok(UserInfo(signedIn.value, email)), calls)
      else
        var calls := looked + [CreateUserWithExternal(email)];
        if created.None? then Run(Problem(Some(CreateUserError)), calls)
        else Run(Ok(UserInfo(created.value, email)), calls)
  }

  /** Once the guards pass, the answer does not depend on the service that was not called. */
  lemma CallbackIgnoresUncalledService(remoteError: Option<string>, info: Option<LoginInfo>,
                                       existing: Option<UserRec>, signedIn: Option<Token>,
                                       created: Option<Token>, other: Option<Token>)
    ensures existing.Some? ==>
              Callback(remoteError, info, existing, signedIn, created) == Callback(remoteError, info, existing, signedIn, other)
    ensures existing.None? ==>
              Callback(remoteError, info, existing, signedIn, created) == Callback(remoteError, info, existing, other, created)
  {
  }

  /** A provider error is answered the same whatever the collaborators would have said. */
  lemma RemoteErrorDecidesAlone(e: string, info: Option<LoginInfo>, info': Option<LoginInfo>,
                                existing: Option<UserRec>, existing': Option<UserRec>,
                                signedIn: Option<Token>, signedIn': Option<Token>,
                                created: Option<Token>, created': Option<Token>)
    ensures Callback(Some(e), info, existing, signedIn, created) == Callback(Some(e), info', existing', signedIn', created')
  {
  }
}
