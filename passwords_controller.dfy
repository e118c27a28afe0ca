/**
 * The password-recovery controller: four actions that choose the response
 * from what the resource class's recovery calls return.
 *
 * The calls into the resource class (`send_reset_password_instructions`,
 * `reset_password!`) are not modelled; their result, a resource carrying
 * its error set, is an argument of the action that makes the call.
 */
module Passwords {
  import opened Wrappers

  /** A user-like record as the controller sees it. Its errors are those the
      resource class's call left on it; a fresh record has none. */
  class Resource {
    const errors: set<string>
    var resetPasswordToken: Option<string>

    /** `resource_class.new`: a blank record. */
    constructor Blank()
      ensures errors == {} && resetPasswordToken == None
    {
      errors := {};
      resetPasswordToken := None;
    }

    /** A record as a resource-class call returns it. */
    constructor (token: Option<string>, errors: set<string>)
      ensures this.errors == errors && resetPasswordToken == token
    {
      this.errors := errors;
      resetPasswordToken := token;
    }
  }

  datatype FlashLevel = SuccessLevel  // `:success`
  datatype FlashKey = SendInstructions | Updated
  datatype FlashMessage = FlashMessage(level: FlashLevel, key: FlashKey)

  /** Redirect targets, as opaque labels for the path helpers. */
  datatype Path = NewSessionPath(resourceName: string) | HomeOrRootPath

  datatype Template = NewTemplate | EditTemplate

  /** What the action has answered so far. */
  datatype Response = NoResponse | Redirect(target: Path) | Render(template: Template)

  /** A `sign_in(scope, resource)` call. */
  datatype SignIn = SignIn(scope: string, resource: Resource)

  /** One request's controller, for the resource named `resourceName`. */
  class PasswordsController {
    const resourceName: string
    var resource: Resource?
    var flash: Option<FlashMessage>
    var response: Response
    var signedIn: Option<SignIn>

    /** Only a resource without errors is ever signed in. */
    ghost predicate Valid()
      reads this
    {
      signedIn.Some? ==> signedIn.value.resource.errors == {}
    }

    constructor (resourceName: string)
      ensures Valid()
      ensures this.resourceName == resourceName
      ensures resource == null && flash == None && response == NoResponse && signedIn == None
    {
      this.resourceName := resourceName;
      resource := null;
      flash := None;
      response := NoResponse;
      signedIn := None;
    }

    /** GET new: show the request form; nothing changes. */
    method New()
      requires Valid()
      ensures Valid()
      ensures unchanged(this)
    {
    }

    /** POST create, given the resource `send_reset_password_instructions`
        returned: on no errors, flash `send_instructions` and redirect to the
        sign-in page; otherwise render the request form again. */
    method Create(returned: Resource)
      requires Valid()
      modifies this
      ensures Valid()
      ensures resource == returned && signedIn == old(signedIn)
      ensures response.Redirect? <==> returned.errors == {}
      ensures response.Render? <==> returned.errors != {}
      ensures returned.errors == {} ==>
        flash == Some(FlashMessage(SuccessLevel, SendInstructions))
        && response == Redirect(NewSessionPath(resourceName))
      ensures returned.errors != {} ==> flash == old(flash) && response == Render(NewTemplate)
    {
      resource := returned;
      if resource.errors == {} {
        flash := Some(FlashMessage(SuccessLevel, SendInstructions));
        response := Redirect(NewSessionPath(resourceName));
      } else {
        response := Render(NewTemplate);
      }
    }

    /** GET edit: a blank resource carrying the token from the request. */
    method Edit(token: Option<string>)
      requires Valid()
      modifies this
      ensures Valid()
      ensures resource != null && fresh(resource)
      ensures resource.resetPasswordToken == token && resource.errors == {}
      ensures flash == old(flash) && response == old(response) && signedIn == old(signedIn)
    {
      resource := new Resource.Blank();
      resource.resetPasswordToken := token;
    }

    /** PUT update, given the resource `reset_password!` returned: on no
        errors, sign exactly that resource in, flash `updated` and redirect
        home; otherwise render the reset form again and sign nobody in. */
    method Update(returned: Resource)
      requires Valid()
      modifies this
      ensures Valid()
      ensures resource == returned
      ensures response.Redirect? <==> returned.errors == {}
      ensures response.Render? <==> returned.errors != {}
      ensures signedIn != old(signedIn) ==> returned.errors == {}
      ensures returned.errors == {} ==>
        signedIn == Some(SignIn(resourceName, returned))
        && flash == Some(FlashMessage(SuccessLevel, Updated))
        && response == Redirect(HomeOrRootPath)
      ensures returned.errors != {} ==>
        signedIn == old(signedIn) && flash == old(flash) && response == Render(EditTemplate)
    {
      resource := returned;
      if resource.errors == {} {
        signedIn := Some(SignIn(resourceName, resource));
        flash := Some(FlashMessage(SuccessLevel, Updated));
        response := Redirect(HomeOrRootPath);
      } else {
        response := Render(EditTemplate);
      }
    }
  }
}
