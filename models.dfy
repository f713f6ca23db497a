/**
  The server's database models: the custom user with a unique e-mail, the password-reset OTP
  record with its validity rule, and the ORM lookups the views use on these tables.
  Tables are sequences of rows in insertion order. Times are integers in microseconds,
  the resolution of a Django `DateTimeField`.
*/
module Models {

  const MicrosPerMinute := 60 * 1000000
  /** `timedelta(minutes=10)` */
  const OtpLifetime := 10 * MicrosPerMinute
  /** `otp = models.CharField(max_length=6)` */
  const OtpMaxLength := 6

  /** What `set_password` stores: a hash of the raw password, compared by `check_password`. */
  datatype Password = Hashed(raw: string)

  /** A row of the user table. */
  datatype CustomUser = CustomUser(username: string, email: string, password: Password, isActive: bool)

  /** A row of the password-reset table. */
  datatype PasswordResetOtp = PasswordResetOtp(email: string, otp: string, createdAt: int, isUsed: bool)

  /** `is_valid`: the code has not been used and ten minutes have not yet passed since it was created. */
  predicate IsValid(r: PasswordResetOtp, now: int)
  {
    !r.isUsed && now < r.createdAt + OtpLifetime
  }

  lemma UsedIsNeverValid(r: PasswordResetOtp, now: int)
    requires r.isUsed
    ensures !IsValid(r, now)
  {
  }

  /** An unused code is valid one microsecond before the ten-minute mark and invalid at it. */
  lemma ExpiresAtTenMinutes(r: PasswordResetOtp)
    requires !r.isUsed
    ensures IsValid(r, r.createdAt + OtpLifetime - 1)
    ensures !IsValid(r, r.createdAt + OtpLifetime)
  {
  }

  /** Once a code is invalid it stays invalid. */
  lemma ExpiryIsFinal(r: PasswordResetOtp, t: int, later: int)
    requires t <= later && !IsValid(r, t)
    ensures !IsValid(r, later)
  {
  }

  /** The indices of the rows satisfying p, in increasing order: a `filter` on the table. */
  function Where<T>(rows: seq<T>, p: T -> bool): (ix: seq<nat>)
    ensures forall k :: 0 <= k < |ix| ==> ix[k] < |rows| && p(rows[ix[k]])
    ensures forall i :: 0 <= i < |rows| && p(rows[i]) ==> i in ix
    ensures forall k, l :: 0 <= k < l < |ix| ==> ix[k] < ix[l]
    decreases |rows|
  {
    if rows == [] then []
    else
      var ix := Where(rows[..|rows| - 1], p);
      if p(rows[|rows| - 1]) then ix + [|rows| - 1] else ix
  }

  /** The three ways `objects.get(...)` ends. */
  datatype Lookup = DoesNotExist | Found(index: nat) | MultipleReturned

  /** `objects.get(...)`: the one row satisfying p, or the exception the ORM raises. */
  function Get<T>(rows: seq<T>, p: T -> bool): (r: Lookup)
    ensures r.DoesNotExist? <==> forall i :: 0 <= i < |rows| ==> !p(rows[i])
    ensures r.Found? ==> r.index < |rows| && p(rows[r.index])
                         && forall i :: 0 <= i < |rows| && p(rows[i]) ==> i == r.index
    ensures r.MultipleReturned? <==> exists i, j :: 0 <= i < j < |rows| && p(rows[i]) && p(rows[j])
  {
    var ix := Where(rows, p);
    if |ix| == 0 then DoesNotExist
    else if |ix| == 1 then Found(ix[0])
    else
      assert ix[0] < ix[1];
      MultipleReturned
  }

  /** `User.objects.get(email=email)` */
  function GetUser(users: seq<CustomUser>, email: string): (r: Lookup)
    ensures r.DoesNotExist? <==> forall i :: 0 <= i < |users| ==> users[i].email != email
    ensures r.Found? ==> r.index < |users| && users[r.index].email == email
  {
    Get(users, (u: CustomUser) => u.email == email)
  }

  /** `PasswordResetOTP.objects.get(email=email, otp=otp)` */
  function GetOtp(otps: seq<PasswordResetOtp>, email: string, otp: string): (r: Lookup)
    ensures r.DoesNotExist? <==> forall i :: 0 <= i < |otps| ==> otps[i].email != email || otps[i].otp != otp
    ensures r.Found? ==> r.index < |otps| && otps[r.index].email == email && otps[r.index].otp == otp
  {
    Get(otps, (r: PasswordResetOtp) => r.email == email && r.otp == otp)
  }

  /** `email = models.EmailField(unique=True)`; usernames carry no such constraint. */
  predicate EmailsUnique(users: seq<CustomUser>)
  {
    forall i, j :: 0 <= i < j < |users| ==> users[i].email != users[j].email
  }

  /** With unique e-mails, looking a user up by e-mail finds exactly the row that has it. */
  lemma GetUserUnique(users: seq<CustomUser>, email: string)
    requires EmailsUnique(users)
    ensures !GetUser(users, email).MultipleReturned?
    ensures forall i :: 0 <= i < |users| ==> (GetUser(users, email) == Found(i) <==> users[i].email == email)
  {
  }

  /** The reset records held for one e-mail, in insertion order. */
  function RecordsFor(otps: seq<PasswordResetOtp>, email: string): (r: seq<PasswordResetOtp>)
    ensures forall k :: 0 <= k < |r| ==> r[k].email == email
  {
    if otps == [] then []
    else if otps[0].email == email then [otps[0]] + RecordsFor(otps[1..], email)
    else RecordsFor(otps[1..], email)
  }

  /** The table after `PasswordResetOTP.objects.filter(email=email).delete()`. */
  function WithoutEmail(otps: seq<PasswordResetOtp>, email: string): (r: seq<PasswordResetOtp>)
    ensures forall k :: 0 <= k < |r| ==> r[k].email != email && r[k] in otps
  {
    if otps == [] then []
    else if otps[0].email == email then WithoutEmail(otps[1..], email)
    else [otps[0]] + WithoutEmail(otps[1..], email)
  }

  /** The table never holds two reset records for one e-mail. */
  ghost predicate OnePerEmail(otps: seq<PasswordResetOtp>)
  {
    forall email :: |RecordsFor(otps, email)| <= 1
  }

  lemma {:induction false} RecordsForAppend(a: seq<PasswordResetOtp>, b: seq<PasswordResetOtp>, email: string)
    ensures RecordsFor(a + b, email) == RecordsFor(a, email) + RecordsFor(b, email)
  {
    if a == [] {
      assert a + b == b;
    } else {
      assert (a + b)[0] == a[0] && (a + b)[1..] == a[1..] + b;
      RecordsForAppend(a[1..], b, email);
    }
  }

  lemma {:induction false} RecordsForWithoutEmail(otps: seq<PasswordResetOtp>, email: string, other: string)
    ensures RecordsFor(WithoutEmail(otps, email), other) == if other == email then [] else RecordsFor(otps, other)
  {
    if otps != [] {
      RecordsForWithoutEmail(otps[1..], email, other);
    }
  }

  /**
    Replacing the records of an e-mail by one new record leaves exactly that record for the
    e-mail and the records of every other e-mail as they were.
  */
  lemma ReplaceRecords(otps: seq<PasswordResetOtp>, created: PasswordResetOtp)
    ensures RecordsFor(WithoutEmail(otps, created.email) + [created], created.email) == [created]
    ensures forall other :: other != created.email ==>
              RecordsFor(WithoutEmail(otps, created.email) + [created], other) == RecordsFor(otps, other)
  {
    RecordsForAppend(WithoutEmail(otps, created.email), [created], created.email);
    RecordsForWithoutEmail(otps, created.email, created.email);
    forall other | other != created.email
      ensures RecordsFor(WithoutEmail(otps, created.email) + [created], other) == RecordsFor(otps, other)
    {
      RecordsForAppend(WithoutEmail(otps, created.email), [created], other);
      RecordsForWithoutEmail(otps, created.email, other);
    }
  }

  /** Two rows with the same e-mail put two records in that e-mail's list. */
  lemma {:induction false} TwoRowsTwoRecords(otps: seq<PasswordResetOtp>, i: nat, j: nat)
    requires i < j < |otps| && otps[i].email == otps[j].email
    ensures |RecordsFor(otps, otps[i].email)| >= 2
  {
    if i == 0 {
      RowHasRecord(otps[1..], j - 1, otps[i].email);
    } else {
      TwoRowsTwoRecords(otps[1..], i - 1, j - 1);
    }
  }

  lemma {:induction false} RowHasRecord(otps: seq<PasswordResetOtp>, k: nat, email: string)
    requires k < |otps| && otps[k].email == email
    ensures |RecordsFor(otps, email)| >= 1
  {
    if k > 0 {
      RowHasRecord(otps[1..], k - 1, email);
    }
  }

  /** With one record per e-mail, no two rows share an e-mail. */
  lemma OnePerEmailPairwise(otps: seq<PasswordResetOtp>)
    requires OnePerEmail(otps)
    ensures forall i, j :: 0 <= i < j < |otps| ==> otps[i].email != otps[j].email
  {
    forall i, j | 0 <= i < j < |otps|
      ensures otps[i].email != otps[j].email
    {
      if otps[i].email == otps[j].email {
        TwoRowsTwoRecords(otps, i, j);
        assert false;
      }
    }
  }

  /** With one record per e-mail, `get(email=..., otp=...)` never finds two rows. */
  lemma GetOtpUnique(otps: seq<PasswordResetOtp>, email: string, otp: string)
    requires OnePerEmail(otps)
    ensures !GetOtp(otps, email, otp).MultipleReturned?
  {
    OnePerEmailPairwise(otps);
  }

  /**
    Marking the record found for (email, otp) as used keeps `get` finding it, and from then on it
    is invalid at every time: the same code cannot reset the password twice.
  */
  lemma UsedRecordStaysFoundAndInvalid(otps: seq<PasswordResetOtp>, email: string, otp: string, i: nat)
    requires GetOtp(otps, email, otp) == Found(i)
    ensures var after := otps[i := otps[i].(isUsed := true)];
      GetOtp(after, email, otp) == Found(i) && forall now :: !IsValid(after[i], now)
  {
    var after := otps[i := otps[i].(isUsed := true)];
    var p := (r: PasswordResetOtp) => r.email == email && r.otp == otp;
    assert forall k :: 0 <= k < |otps| ==> p(after[k]) == p(otps[k]);
  }
}
