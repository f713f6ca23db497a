/**
  The server's registration and password-reset views, run against the user table and the
  password-reset table they change in place. The current time, the random code and the
  outcome of sending the e-mail are parameters.
*/
module Views {
  import opened Wrappers
  import opened Text
  import opened Models
  import opened Serializers

  const Ok200 := 200
  const BadRequest400 := 400
  const NotFound404 := 404
  const ServerError500 := 500

  class Database {
    var users: seq<CustomUser>
    var otps: seq<PasswordResetOtp>

    /** The constraints the tables keep: unique e-mails, at most one reset record per e-mail. */
    ghost predicate Valid()
      reads this
    {
      EmailsUnique(users) && OnePerEmail(otps)
    }

    constructor ()
      ensures Valid() && users == [] && otps == []
    {
      users, otps := [], [];
    }

    /** `register_api`: validate, then insert the new user; 400 with the fields in error otherwise. */
    method Register(form: RegisterForm) returns (status: int, errors: set<FieldName>)
      requires Valid()
      modifies this`users
      ensures Valid()
      ensures var v := ValidateRegistration(old(users), form);
        && (v.Ok? ==> status == Ok200 && errors == {} && users == old(users) + [v.value])
        && (v.Err? ==> status == BadRequest400 && errors == v.error && users == old(users))
    {
      var v := ValidateRegistration(users, form);
      match v
      case Ok(user) =>
        users := users + [user];
        status, errors := Ok200, {};
      case Err(fields) =>
        status, errors := BadRequest400, fields;
    }

    /**
      `forgot_password`: replace every reset record of the e-mail by one with a new six-digit code.
      `code` is what `random.randint(100000, 999999)` returned, `now` the creation time, and
      `mailSent` whether `send_mail` returned normally; the record is kept when it did not.
    */
    method ForgotPassword(email: Option<string>, code: nat, now: int, mailSent: bool) returns (status: int)
      requires Valid() && 100000 <= code <= 999999
      modifies this`otps
      ensures Valid()
      ensures !Truthy(email) ==> status == BadRequest400 && otps == old(otps)
      ensures Truthy(email) && !GetUser(users, email.value).Found? ==> status == NotFound404 && otps == old(otps)
      ensures Truthy(email) && GetUser(users, email.value).Found? ==>
                && otps == WithoutEmail(old(otps), email.value) + [PasswordResetOtp(email.value, Decimal(code), now, false)]
                && status == (if mailSent then Ok200 else ServerError500)
    {
      if !Truthy(email) {
        return BadRequest400;
      }
      GetUserUnique(users, email.value);
      if !GetUser(users, email.value).Found? {
        return NotFound404;
      }
      var otp := Decimal(code);
      var created := PasswordResetOtp(email.value, otp, now, false);
      ReplaceRecords(otps, created);
      otps := WithoutEmail(otps, email.value) + [created];
      if mailSent {
        status := Ok200;
      } else {
        status := ServerError500;
      }
    }

    /** `verify_otp`: 200 exactly when a valid record holds this e-mail and code; it changes nothing. */
    method VerifyOtp(email: Option<string>, otp: Option<string>, now: int) returns (status: int)
      requires Valid()
      ensures status == Ok200 || status == BadRequest400
      ensures status == Ok200 <==>
                && Truthy(email) && Truthy(otp)
                && exists i :: 0 <= i < |otps| && otps[i].email == email.value && otps[i].otp == otp.value
                               && IsValid(otps[i], now)
    {
      if !Truthy(email) || !Truthy(otp) {
        return BadRequest400;
      }
      GetOtpUnique(otps, email.value, otp.value);
      match GetOtp(otps, email.value, otp.value)
      case DoesNotExist =>
        status := BadRequest400;
      case Found(i) =>
        status := if IsValid(otps[i], now) then Ok200 else BadRequest400;
    }

    /**
      `reset_password`: with a valid record for this e-mail and code, set the user's password
      and mark the record used; every other outcome changes nothing.
    */
    method ResetPassword(email: Option<string>, otp: Option<string>, newPassword: Option<string>, now: int)
      returns (status: int)
      requires Valid()
      modifies this
      ensures Valid()
      ensures !Truthy(email) || !Truthy(otp) || !Truthy(newPassword) ==>
                status == BadRequest400 && users == old(users) && otps == old(otps)
      ensures Truthy(email) && Truthy(otp) && Truthy(newPassword) ==>
                match GetOtp(old(otps), email.value, otp.value)
                case Found(i) =>
                  if !IsValid(old(otps)[i], now) then
                    status == BadRequest400 && users == old(users) && otps == old(otps)
                  else if !GetUser(old(users), email.value).Found? then
                    status == NotFound404 && users == old(users) && otps == old(otps)
                  else
                    var u := GetUser(old(users), email.value).index;
                    && status == Ok200
                    && users == old(users)[u := old(users)[u].(password := Hashed(newPassword.value))]
                    && otps == old(otps)[i := old(otps)[i].(isUsed := true)]
                case _ =>
                  status == BadRequest400 && users == old(users) && otps == old(otps)
    {
      if !Truthy(email) || !Truthy(otp) || !Truthy(newPassword) {
        return BadRequest400;
      }
      GetOtpUnique(otps, email.value, otp.value);
      match GetOtp(otps, email.value, otp.value)
      case DoesNotExist =>
        status := BadRequest400;
      case Found(i) =>
        if !IsValid(otps[i], now) {
          return BadRequest400;
        }
        GetUserUnique(users, email.value);
        match GetUser(users, email.value)
        case DoesNotExist =>
          status := NotFound404;
        case Found(u) =>
          users := users[u := users[u].(password := Hashed(newPassword.value))];
          UsedRecordKeepsOnePerEmail(otps, i);
          otps := otps[i := otps[i].(isUsed := true)];
          status := Ok200;
    }
  }

  /** Marking a record used changes no e-mail, so the table still holds one record per e-mail. */
  lemma UsedRecordKeepsOnePerEmail(otps: seq<PasswordResetOtp>, i: nat)
    requires OnePerEmail(otps) && i < |otps|
    ensures OnePerEmail(otps[i := otps[i].(isUsed := true)])
  {
    var after := otps[i := otps[i].(isUsed := true)];
    forall email ensures |RecordsFor(after, email)| == |RecordsFor(otps, email)| {
      SameEmailsSameCount(otps, after, email);
    }
  }

  lemma {:induction false} SameEmailsSameCount(a: seq<PasswordResetOtp>, b: seq<PasswordResetOtp>, email: string)
    requires |a| == |b| && forall k :: 0 <= k < |a| ==> a[k].email == b[k].email
    ensures |RecordsFor(a, email)| == |RecordsFor(b, email)|
  {
    if a != [] {
      SameEmailsSameCount(a[1..], b[1..], email);
    }
  }

  /**
    A non-empty string with no whitespace at either end and no NUL: DRF's trimming leaves it as
    it is and its validators accept it.
  */
  predicate Plain(s: string)
  {
    s != [] && !IsSpace(s[0]) && !IsSpace(s[|s| - 1]) && !HoldsNul(s)
  }

  lemma PlainIsStripped(s: string)
    requires Plain(s)
    ensures Strip(s) == s
  {
    StripUnchangedIff(s);
  }

  /** Registering plain values under a new e-mail inserts exactly those values. */
  lemma PlainRegistration(users: seq<CustomUser>, username: string, email: string, password: string)
    requires Plain(username) && Plain(email) && Plain(password)
    requires forall i :: 0 <= i < |users| ==> users[i].email != email
    ensures ValidateRegistration(users, RegisterForm(Some(username), Some(email), Some(password)))
            == Ok(CustomUser(username, email, Hashed(password), true))
  {
    PlainIsStripped(username);
    PlainIsStripped(email);
    PlainIsStripped(password);
  }

  /**
    The registration tests: two users may share a username when their e-mails differ, and a
    second registration with an e-mail already taken is refused with an e-mail error.
  */
  method DuplicateUsernameAllowed(username: string, email1: string, email2: string, password: string)
    returns (first: int, second: int, sharing: nat)
    requires Plain(username) && Plain(email1) && Plain(email2) && Plain(password) && email1 != email2
    ensures first == Ok200 && second == Ok200 && sharing == 2
  {
    TwoRegistrations(username, email1, email2, password);
    var db := new Database();
    var errors: set<FieldName>;
    first, errors := db.Register(RegisterForm(Some(username), Some(email1), Some(password)));
    second, errors := db.Register(RegisterForm(Some(username), Some(email2), Some(password)));
    CountOfTwo(CustomUser(username, email1, Hashed(password), true),
               CustomUser(username, email2, Hashed(password), true), username);
    sharing := CountUsername(db.users, username);
  }

  /** One username under two new e-mails: both registrations insert exactly the values given. */
  lemma TwoRegistrations(username: string, email1: string, email2: string, password: string)
    requires Plain(username) && Plain(email1) && Plain(email2) && Plain(password) && email1 != email2
    ensures ValidateRegistration([], RegisterForm(Some(username), Some(email1), Some(password)))
            == Ok(CustomUser(username, email1, Hashed(password), true))
    ensures ValidateRegistration([CustomUser(username, email1, Hashed(password), true)],
                                 RegisterForm(Some(username), Some(email2), Some(password)))
            == Ok(CustomUser(username, email2, Hashed(password), true))
  {
    PlainRegistration([], username, email1, password);
    PlainRegistration([CustomUser(username, email1, Hashed(password), true)], username, email2, password);
  }

  lemma CountOfTwo(a: CustomUser, b: CustomUser, name: string)
    ensures CountUsername([a, b], name) == (if a.username == name then 1 else 0) + (if b.username == name then 1 else 0)
  {
    assert [a, b][1..] == [b];
    assert [b][1..] == [];
    assert CountUsername([b], name) == (if b.username == name then 1 else 0) + CountUsername([], name);
  }

  /** `CustomUser.objects.filter(username=name).count()` */
  function CountUsername(users: seq<CustomUser>, name: string): nat
  {
    if users == [] then 0 else (if users[0].username == name then 1 else 0) + CountUsername(users[1..], name)
  }

  method DuplicateEmailRejected(username1: string, username2: string, email: string, password: string)
    returns (first: int, second: int, errors: set<FieldName>)
    requires Plain(username1) && Plain(email) && Plain(password)
    ensures first == Ok200 && second == BadRequest400 && EmailField in errors
  {
    var db := new Database();
    PlainRegistration([], username1, email, password);
    first, errors := db.Register(RegisterForm(Some(username1), Some(email), Some(password)));
    assert db.users[0].email == email;
    PlainIsStripped(email);
    second, errors := db.Register(RegisterForm(Some(username2), Some(email), Some(password)));
  }

  /** One code, used once: the first reset succeeds and the second, with the same code, is refused. */
  method ResetTwice(username: string, email: string, password: string, code: nat, now: int)
    returns (first: int, second: int)
    requires Plain(username) && Plain(email) && Plain(password) && 100000 <= code <= 999999
    ensures first == Ok200 && second == BadRequest400
  {
    var db := RegisteredWithCode(username, email, password, code, now);
    var otp := Decimal(code);
    var record := PasswordResetOtp(email, otp, now, false);
    OnlyRecordFound(record);
    first := db.ResetPassword(Some(email), Some(otp), Some(password + "!"), now);
    var used := record.(isUsed := true);
    assert db.otps == [record][0 := used];
    assert db.otps == [used];
    OnlyRecordFound(used);
    second := db.ResetPassword(Some(email), Some(otp), Some(password + "?"), now);
  }

  /** A database holding one registered user and one fresh code for that user's e-mail. */
  method RegisteredWithCode(username: string, email: string, password: string, code: nat, now: int)
    returns (db: Database)
    requires Plain(username) && Plain(email) && Plain(password) && 100000 <= code <= 999999
    ensures fresh(db) && db.Valid()
    ensures db.users == [CustomUser(username, email, Hashed(password), true)]
    ensures db.otps == [PasswordResetOtp(email, Decimal(code), now, false)]
  {
    db := Registered(username, email, password);
    OnlyUserFound(CustomUser(username, email, Hashed(password), true));
    OnlyRecordFound(PasswordResetOtp(email, Decimal(code), now, false));
    var status := db.ForgotPassword(Some(email), code, now, true);
  }

  /** A database holding one user registered with plain values and no reset records. */
  method Registered(username: string, email: string, password: string) returns (db: Database)
    requires Plain(username) && Plain(email) && Plain(password)
    ensures fresh(db) && db.Valid()
    ensures db.users == [CustomUser(username, email, Hashed(password), true)] && db.otps == []
  {
    db := new Database();
    PlainRegistration([], username, email, password);
    var status, errors := db.Register(RegisterForm(Some(username), Some(email), Some(password)));
  }

  lemma OnlyUserFound(user: CustomUser)
    ensures GetUser([user], user.email) == Found(0)
  {
  }

  lemma OnlyRecordFound(record: PasswordResetOtp)
    ensures GetOtp([record], record.email, record.otp) == Found(0)
    ensures WithoutEmail([], record.email) == []
  {
  }
}
