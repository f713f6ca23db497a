/**
  The registration and login serializers of the server. Field validation follows the declared
  DRF fields: `CharField` and `EmailField` trim surrounding whitespace by default, refuse a
  missing or blank value when required, and refuse a value holding a NUL character.
*/
module Serializers {
  import opened Wrappers
  import opened Text
  import opened Models

  datatype FieldName = UsernameField | EmailField | PasswordField

  /** The value a DRF text field validates to: the submitted string with outer whitespace removed. */
  function Trimmed(raw: Option<string>): Option<string>
  {
    match raw
    case None => None
    case Some(s) => Some(Strip(s))
  }

  /**
    What DRF's `ProhibitNullCharactersValidator` refuses. Every `CharField` and `EmailField` runs it
    on the trimmed, non-blank value; NUL is not whitespace, so the submitted value holds a NUL
    exactly when the trimmed one does (`NulSurvivesStrip`).
  */
  predicate HoldsNul(s: string)
  {
    '\0' in s
  }

  /** Trimming removes only whitespace, so it neither removes nor adds a NUL. */
  lemma NulSurvivesStrip(s: string)
    ensures HoldsNul(Strip(s)) <==> HoldsNul(s)
  {
    var t := TrimStart(s);
    var r := TrimEnd(t);
    var cut := |s| - |t|;
    assert t == s[cut..] && r == t[..|r|];
    if HoldsNul(s) {
      var i :| 0 <= i < |s| && s[i] == '\0';
      assert !IsSpace(s[i]);
      assert cut <= i;
      assert t[i - cut] == s[i];
      assert i - cut < |r|;
      assert r[i - cut] == '\0';
    }
    if HoldsNul(r) {
      var j :| 0 <= j < |r| && r[j] == '\0';
      assert s[j + cut] == r[j];
    }
  }

  /** A required text field is satisfied when its trimmed value is not empty and holds no NUL. */
  predicate Supplied(raw: Option<string>)
  {
    Truthy(Trimmed(raw)) && !HoldsNul(raw.value)
  }

  /**
    The optional username field (`allow_blank`, `allow_null`) fails only when a non-blank value
    holds a NUL; a blank value validates to the empty string before any validator runs, and it
    holds no NUL anyway.
  */
  predicate UsernameRefused(raw: Option<string>)
  {
    raw.Some? && HoldsNul(raw.value)
  }

  /** `email.split('@')[0]`: the part of the e-mail before its first '@'. */
  function EmailPrefix(email: string): (r: string)
    ensures '@' !in r
    ensures |r| <= |email| && r == email[..|r|]
    ensures |r| < |email| ==> email[|r|] == '@'
  {
    if email == [] || email[0] == '@' then [] else [email[0]] + EmailPrefix(email[1..])
  }

  /** The local part of `local@domain` is `local` whenever it holds no '@' itself. */
  lemma {:induction false} EmailPrefixOfAddress(local: string, domain: string)
    requires '@' !in local
    ensures EmailPrefix(local + "@" + domain) == local
  {
    if local != [] {
      assert (local + "@" + domain)[1..] == local[1..] + "@" + domain;
      EmailPrefixOfAddress(local[1..], domain);
    }
  }

  /** The username `create` stores: the submitted one unless it is missing, empty or blank. */
  function ResolveUsername(username: Option<string>, email: string): string
  {
    if username.None? || username.value == "" || Strip(username.value) == "" then EmailPrefix(email)
    else username.value
  }

  /**
    A missing or whitespace-only username is replaced by the e-mail's local part; a username with
    any other character is kept as submitted.
  */
  lemma UsernameRule(username: Option<string>, email: string)
    ensures (username.None? || forall i :: 0 <= i < |username.value| ==> IsSpace(username.value[i]))
            ==> ResolveUsername(username, email) == EmailPrefix(email)
    ensures (username.Some? && exists i :: 0 <= i < |username.value| && !IsSpace(username.value[i]))
            ==> ResolveUsername(username, email) == username.value
  {
    if username.Some? {
      StripEmptyIffBlank(username.value);
    }
  }

  /** The registration request body. */
  datatype RegisterForm = RegisterForm(username: Option<string>, email: Option<string>, password: Option<string>)

  /** `validate_email`: `User.objects.filter(email=value).exists()` */
  predicate EmailTaken(users: seq<CustomUser>, email: string)
  {
    exists i | 0 <= i < |users| :: users[i].email == email
  }

  /** Whether `RegisterSerializer` reports an error for the field. */
  predicate FieldRefused(users: seq<CustomUser>, form: RegisterForm, field: FieldName)
  {
    match field
    case UsernameField => UsernameRefused(form.username)
    case EmailField => !Supplied(form.email) || EmailTaken(users, Trimmed(form.email).value)
    case PasswordField => !Supplied(form.password)
  }

  /** The fields `RegisterSerializer` reports errors for. */
  function RegisterErrors(users: seq<CustomUser>, form: RegisterForm): (r: set<FieldName>)
    ensures UsernameField in r <==> UsernameRefused(form.username)
    ensures PasswordField in r <==> !Supplied(form.password)
    ensures EmailField in r <==> !Supplied(form.email) || EmailTaken(users, Strip(form.email.value))
  {
    set field | field in {UsernameField, EmailField, PasswordField} && FieldRefused(users, form, field)
  }

  /**
    Registration: either the row `create` inserts, or the fields in error. Apart from a NUL
    character, the username never causes a rejection, so usernames may repeat.
  */
  function ValidateRegistration(users: seq<CustomUser>, form: RegisterForm): (r: Result<CustomUser, set<FieldName>>)
    ensures r.Ok? <==> Supplied(form.email) && Supplied(form.password)
                       && !EmailTaken(users, Strip(form.email.value)) && !UsernameRefused(form.username)
    ensures r.Err? ==> r.error != {} && (EmailField in r.error <==>
              !Supplied(form.email) || EmailTaken(users, Strip(form.email.value)))
    ensures r.Err? ==> (UsernameField in r.error <==> UsernameRefused(form.username))
    ensures r.Ok? ==> && r.value.email == Strip(form.email.value)
                      && r.value.username == ResolveUsername(Trimmed(form.username), r.value.email)
                      && r.value.password == Hashed(Strip(form.password.value))
                      && r.value.isActive
    ensures r.Ok? && EmailsUnique(users) ==> EmailsUnique(users + [r.value])
  {
    var errors := RegisterErrors(users, form);
    if errors != {} then
      Err(errors)
    else
      var email := Trimmed(form.email).value;
      var user := CustomUser(ResolveUsername(Trimmed(form.username), email), email,
                             Hashed(Trimmed(form.password).value), true);
      AppendNewEmail(users, user);
      Ok(user)
  }

  /** Appending a user whose e-mail is not taken keeps e-mails unique. */
  lemma AppendNewEmail(users: seq<CustomUser>, user: CustomUser)
    ensures EmailsUnique(users) && !EmailTaken(users, user.email) ==> EmailsUnique(users + [user])
  {
    if EmailsUnique(users) && !EmailTaken(users, user.email) {
      var after := users + [user];
      forall i, j | 0 <= i < j < |after|
        ensures after[i].email != after[j].email
      {
        if j == |users| {
          assert after[i] == users[i];
        }
      }
    }
  }

  /**
    The registration test, for every address: an empty username with `local@domain` yields
    `local` (the test uses `testuser@example.com`).
  */
  lemma AutoGeneratedUsername(local: string, domain: string, password: string)
    requires '@' !in local && local != [] && !IsSpace(local[0]) && !HoldsNul(local)
    requires domain != [] && !IsSpace(domain[|domain| - 1]) && !HoldsNul(domain)
    requires Supplied(Some(password))
    ensures var r := ValidateRegistration([], RegisterForm(Some(""), Some(local + "@" + domain), Some(password)));
      r.Ok? && r.value.username == local
  {
    var email := local + "@" + domain;
    assert email[0] == local[0] && email[|email| - 1] == domain[|domain| - 1];
    assert TrimStart(email) == email;
    assert Strip(email) == email;
    EmailPrefixOfAddress(local, domain);
  }

  /** The login request body. */
  datatype LoginForm = LoginForm(email: Option<string>, password: Option<string>)

  /** Field errors (a missing, blank or NUL-holding value), or the `validate` rejection. */
  datatype LoginError = InvalidFields(fields: set<FieldName>) | IncorrectCredentials

  /**
    `authenticate(username=email, password=password)` with the model backend: the user with that
    e-mail, if its password matches and it is active.
  */
  function Authenticate(users: seq<CustomUser>, email: string, password: string): (r: Option<CustomUser>)
    requires EmailsUnique(users)
    ensures r.Some? <==> exists i :: 0 <= i < |users| && users[i].email == email
                                     && users[i].password == Hashed(password) && users[i].isActive
    ensures r.Some? ==> r.value in users && r.value.email == email && r.value.isActive
  {
    GetUserUnique(users, email);
    match GetUser(users, email)
    case Found(i) =>
      if users[i].password == Hashed(password) && users[i].isActive then Some(users[i]) else None
    case _ => None
  }

  /**
    `LoginSerializer`: both fields must be present, not blank and free of NUL, and
    authentication must give an active user; that user is the result.
  */
  function ValidateLogin(users: seq<CustomUser>, form: LoginForm): (r: Result<CustomUser, LoginError>)
    requires EmailsUnique(users)
    ensures !Supplied(form.email) || !Supplied(form.password) ==> r.Err? && r.error.InvalidFields?
    ensures r.Ok? <==> && Supplied(form.email) && Supplied(form.password)
                       && exists i :: 0 <= i < |users| && users[i].email == Strip(form.email.value)
                                      && users[i].password == Hashed(Strip(form.password.value))
                                      && users[i].isActive
    ensures r.Err? && r.error.InvalidFields? ==>
              (EmailField in r.error.fields <==> !Supplied(form.email))
              && (PasswordField in r.error.fields <==> !Supplied(form.password))
    ensures r.Ok? ==> r.value in users && r.value.email == Strip(form.email.value) && r.value.isActive
  {
    var invalid := (if Supplied(form.email) then {} else {EmailField})
                 + (if Supplied(form.password) then {} else {PasswordField});
    if invalid != {} then
      Err(InvalidFields(invalid))
    else
      var email, password := Trimmed(form.email).value, Trimmed(form.password).value;
      GetUserUnique(users, email);
      match Authenticate(users, email, password)
      case Some(user) => Ok(user)
      case None => Err(IncorrectCredentials)
  }

  /** A user who has just registered can log in with the same e-mail and password. */
  lemma LoginAfterRegistration(users: seq<CustomUser>, form: RegisterForm)
    requires EmailsUnique(users) && ValidateRegistration(users, form).Ok?
    ensures var user := ValidateRegistration(users, form).value;
      EmailsUnique(users + [user]) && ValidateLogin(users + [user], LoginForm(form.email, form.password)) == Ok(user)
  {
    var user := ValidateRegistration(users, form).value;
    var after := users + [user];
    GetUserUnique(after, user.email);
    assert after[|users|] == user;
  }
}
