/** `frontend/components/Auth0Button.tsx`: what the sign-in control shows
    for the Auth0 SDK's state, and the first name it greets the user by. */
module AuthButton {
  import opened Wrappers
  import opened Strings

  datatype User = User(givenName: Option<string>, name: Option<string>, email: Option<string>)

  datatype AuthState = AuthState(isLoading: bool, error: Option<string>, isAuthenticated: bool, user: Option<User>)

  datatype View = Spinner | ErrorView(message: string) | SignedIn(firstName: string) | SignInButton


  const DefaultName := "User"

  /** `given_name || name?.split(' ')[0] || email?.split('@')[0] || 'User'`. */
  function FirstName(u: User): (r: string)
    ensures r != ""
  {
    if Truthy(u.givenName) then u.givenName.value
    else if u.name.Some? && BeforeFirst(u.name.value, ' ') != "" then BeforeFirst(u.name.value, ' ')
    else if u.email.Some? && BeforeFirst(u.email.value, '@') != "" then BeforeFirst(u.email.value, '@')
    else DefaultName
  }

  /** The first name is never empty and is the first usable choice: the
      given name, else the first word of the name, else the local part of
      the e-mail, else `User`.  The word and the local part are the prefix
      that stops at the first space or `@` (or at the end); a piece is
      unusable exactly when it is missing, empty or starts with its
      separator. */
  lemma FirstNameSpec(u: User)
    ensures FirstName(u) != ""
    ensures Truthy(u.givenName) ==> FirstName(u) == u.givenName.value
    ensures !Truthy(u.givenName) && u.name.Some? && u.name.value != "" && u.name.value[0] != ' ' ==>
      && FirstName(u) == BeforeFirst(u.name.value, ' ')
      && StartsWith(u.name.value, FirstName(u)) && ' ' !in FirstName(u)
      && (|FirstName(u)| == |u.name.value| || u.name.value[|FirstName(u)|] == ' ')
    ensures !Truthy(u.givenName) && (u.name.None? || u.name.value == "" || u.name.value[0] == ' ')
            && u.email.Some? && u.email.value != "" && u.email.value[0] != '@' ==>
      && FirstName(u) == BeforeFirst(u.email.value, '@')
      && StartsWith(u.email.value, FirstName(u)) && '@' !in FirstName(u)
      && (|FirstName(u)| == |u.email.value| || u.email.value[|FirstName(u)|] == '@')
    ensures !Truthy(u.givenName) && (u.name.None? || u.name.value == "" || u.name.value[0] == ' ')
            && (u.email.None? || u.email.value == "" || u.email.value[0] == '@') ==>
      FirstName(u) == DefaultName
    ensures FirstName(u) == DefaultName ==>
      (!Truthy(u.givenName) || u.givenName == Some(DefaultName))
  {
    if u.name.Some? {
      FirstTokenEmpty(u.name.value, ' ');
    }
    if u.email.Some? {
      FirstTokenEmpty(u.email.value, '@');
    }
  }

  /** `s.split(sep)[0]` is empty exactly when `s` is empty or starts with `sep`. */
  lemma FirstTokenEmpty(s: string, sep: char)
    ensures BeforeFirst(s, sep) == "" <==> s == "" || s[0] == sep
  {
    var r := BeforeFirst(s, sep);
    if r != "" {
      assert r[0] == s[0] && r[0] in r;
    }
  }

  /** Empty pieces fall through: a name that starts with a space has an
      empty first word, so the e-mail's local part is used. */
  lemma LeadingSpaceFallsToEmail(rest: string, local: string, domain: string)
    requires local != "" && '@' !in local
    ensures FirstName(User(None, Some(" " + rest), Some(local + "@" + domain))) == local
  {
    assert BeforeFirst(" " + rest, ' ') == "";
    LocalPart(local, domain);
  }

  lemma LocalPart(local: string, domain: string)
    requires '@' !in local
    ensures BeforeFirst(local + "@" + domain, '@') == local
  {
    var s := local + "@" + domain;
    var r := BeforeFirst(s, '@');
    assert s[|local|] == '@';
    assert forall i :: 0 <= i < |local| ==> s[i] == local[i];
    assert |r| == |local|;
  }

  /** The control: loading first, then an error, then the signed-in view
      (which needs both the flag and a user), then the sign-in button. */
  function Render(a: AuthState): (v: View)
    ensures v.Spinner? <==> a.isLoading
    ensures v.ErrorView? <==> !a.isLoading && a.error.Some?
    ensures v.SignedIn? <==> !a.isLoading && a.error.None? && a.isAuthenticated && a.user.Some?
    ensures v.SignInButton? <==> !a.isLoading && a.error.None? && !(a.isAuthenticated && a.user.Some?)
    ensures v.SignedIn? ==> v.firstName == FirstName(a.user.value) && v.firstName != ""
  {
    if a.isLoading then Spinner
    else if a.error.Some? then ErrorView(a.error.value)
    else if a.isAuthenticated && a.user.Some? then
      FirstNameSpec(a.user.value);
      SignedIn(FirstName(a.user.value))
    else SignInButton
  }
}
