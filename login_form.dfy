/** The login form: the form's schema, the hard-coded credential check, and
    the state changes of a submission. The one-second wait between the two
    halves of a submission splits it into `Begin` and `Complete`. */
module LoginForm {
  import opened Domain

  datatype Credentials = Credentials(email: string, password: string)

  /** What a submission decides: go to a route, or reject the credentials. */
  datatype Outcome = Navigate(route: string) | Rejected

  const AdminRoute: string := "/admin/dashboard"
  const UserRoute: string := "/dashboard"
  const InvalidMessage: string := "Invalid email or password. Please try again."

  /** The credential check of `onSubmit`: the two demo accounts and nobody else. */
  function Decide(values: Credentials): (o: Outcome)
    ensures o == Navigate(AdminRoute) <==> values == Credentials("admin@gmail.com", "admin123")
    ensures o == Navigate(UserRoute) <==> values == Credentials("user@gmail.com", "user123")
    ensures o == Rejected <==>
      values != Credentials("admin@gmail.com", "admin123") && values != Credentials("user@gmail.com", "user123")
  {
    if values.email == "admin@gmail.com" && values.password == "admin123" then Navigate(AdminRoute)
    else if values.email == "user@gmail.com" && values.password == "user123" then Navigate(UserRoute)
    else Rejected
  }

  /** The password rule of `formSchema`: at least one character. */
  predicate PasswordGiven(values: Credentials)
  {
    |values.password| >= 1
  }

  /** An empty password never gets past the schema, whatever the email. */
  lemma EmptyPasswordRejected(email: string)
    ensures !PasswordGiven(Credentials(email, ""))
  {
  }

  /** Both accounts pass the password rule. */
  lemma AccountsPassSchema(values: Credentials)
    requires Decide(values).Navigate?
    ensures PasswordGiven(values)
  {
  }

  /** The form's state: the two inputs, the error shown and the loading flag,
      and the route the router was last sent to. */
  class Form {
    var email: string
    var password: string
    var error: Option<string>
    var isLoading: bool
    var navigatedTo: Option<string>

    /** The default values: empty inputs, no error, not loading. */
    constructor ()
      ensures email == "" && password == ""
      ensures error == None && !isLoading && navigatedTo == None
    {
      email := "";
      password := "";
      error := None;
      isLoading := false;
      navigatedTo := None;
    }

    /** The user types into the two inputs. */
    method Enter(e: string, p: string)
      modifies this
      ensures email == e && password == p
      ensures error == old(error) && isLoading == old(isLoading) && navigatedTo == old(navigatedTo)
    {
      email := e;
      password := p;
    }

    /** The part of `onSubmit` before the wait: loading on, any old error cleared. */
    method Begin()
      modifies this
      ensures isLoading && error == None
      ensures email == old(email) && password == old(password) && navigatedTo == old(navigatedTo)
    {
      isLoading := true;
      error := None;
    }

    /** The part of `onSubmit` after the wait: go to the account's route, or
        show the error and reset the inputs; loading off either way. */
    method Complete(values: Credentials)
      modifies this
      ensures !isLoading
      ensures Decide(values).Navigate? ==>
        navigatedTo == Some(Decide(values).route)
        && error == old(error) && email == old(email) && password == old(password)
      ensures Decide(values) == Rejected ==>
        navigatedTo == old(navigatedTo) && error == Some(InvalidMessage) && email == "" && password == ""
    {
      var outcome := Decide(values);
      if outcome.Navigate? {
        navigatedTo := Some(outcome.route);
      } else {
        error := Some(InvalidMessage);
        email := "";
        password := "";
      }
      isLoading := false;
    }

    /** `onSubmit`: the whole submission. It ends with loading off, and the
        only error it can leave is its own. */
    method OnSubmit(values: Credentials)
      modifies this
      ensures !isLoading
      ensures Decide(values).Navigate? ==>
        navigatedTo == Some(Decide(values).route) && error == None
        && email == old(email) && password == old(password)
      ensures Decide(values) == Rejected ==>
        navigatedTo == old(navigatedTo) && error == Some(InvalidMessage) && email == "" && password == ""
    {
      Begin();
      Complete(values);
    }

    /** `form.handleSubmit(onSubmit)`: the schema runs first, and a missing
        password stops the submission with the state as it was. */
    method HandleSubmit()
      modifies this
      ensures !PasswordGiven(Credentials(old(email), old(password))) ==>
        email == old(email) && password == old(password) && error == old(error)
        && isLoading == old(isLoading) && navigatedTo == old(navigatedTo)
      ensures PasswordGiven(Credentials(old(email), old(password))) ==> !isLoading
      ensures PasswordGiven(Credentials(old(email), old(password))) ==>
        var o := Decide(Credentials(old(email), old(password)));
        (o.Navigate? ==> navigatedTo == Some(o.route) && error == None)
        && (o == Rejected ==> error == Some(InvalidMessage) && email == "" && password == ""
                              && navigatedTo == old(navigatedTo))
    {
      var values := Credentials(email, password);
      if PasswordGiven(values) {
        OnSubmit(values);
      }
    }
  }
}
