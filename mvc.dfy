/**
 * The framework values the controllers produce and consume: action results,
 * view models, ModelState entries and the outcome of an identity-store call.
 */
module Mvc {
  import opened Wrappers
  import opened Identity

  /** An entry of ModelState: the field it is about ("" for the whole model) and the message. */
  datatype ModelError = ModelError(key: string, message: string)

  datatype IdentityError = IdentityError(code: string, description: string)

  /** The outcome of a UserManager call such as CreateAsync or DeleteAsync. */
  datatype IdentityResult = IdentityResult(succeeded: bool, errors: seq<IdentityError>)

  /** The registration form Register receives. */
  datatype RegisterViewModel = RegisterViewModel(email: string, password: string, confirmPassword: string)

  datatype ViewModel =
    | AccountViewModel(id: Uid, email: string)
    | DeleteViewModel(errors: seq<string>)
    | EmptyRegisterForm  // a blank RegisterViewModel

  /** The JSON body the external-login callback answers with. */
  datatype UserInfo = UserInfo(token: Token, email: string)

  datatype ActionResult =
    | Redirect(url: string)
    | RedirectToAction(action: string, controller: string)
    | View(name: string, model: ViewModel)
    | BadRequest(message: string)
    | Problem(detail: Option<string>)
    | StatusCode(status: int, modelState: seq<ModelError>)
    | Ok(userInfo: UserInfo)

  /** The descriptions of identity errors, one per error and in the same order. */
  function Descriptions(errors: seq<IdentityError>): (ds: seq<string>)
    ensures |ds| == |errors|
    ensures forall i :: 0 <= i < |errors| ==> ds[i] == errors[i].description
  {
    if errors == [] then [] else [errors[0].description] + Descriptions(errors[1..])
  }
}
