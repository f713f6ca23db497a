/**
  The password-reset page of the web client: a three-step wizard (e-mail, code, new password)
  driven by its event handlers, and the filter applied to what is typed into the code field.
  Each handler is two events, split at its `await api.post(...)`: the part up to the post, and
  the part that runs when the post settles. Other events (typing, the back arrow, the resend
  link, the Enter key) may come in between, and posts may settle in any order.
*/
module ForgotPasswordPage {
  import opened Wrappers
  import opened Text

  /** `slice(0, 6)` and `maxLength={6}` on the code field. */
  const OtpDigits := 6
  const ErrorMark := "\U{274C} "
  const SuccessMark := "\U{2705} "
  const LoginPath := "/login"

  /** `value.replace(/\D/g, '').slice(0, 6)`: the first six digits typed, in order. */
  function SanitizeOtp(input: string): (r: string)
    ensures AllDigits(r) && |r| <= OtpDigits
    ensures |r| == if |DigitsOf(input)| < OtpDigits then |DigitsOf(input)| else OtpDigits
    ensures r == DigitsOf(input)[..|r|]
  {
    var digits := DigitsOf(input);
    if |digits| <= OtpDigits then digits else digits[..OtpDigits]
  }

  /**
    One more character typed at the end of the field: a digit is appended while fewer than six
    are shown, and anything else leaves the field as it was.
  */
  lemma TypeCharacter(s: string, c: char)
    ensures SanitizeOtp(s + [c]) ==
              if IsDigit(c) && |SanitizeOtp(s)| < OtpDigits then SanitizeOtp(s) + [c] else SanitizeOtp(s)
  {
    DigitsOfAppend(s, [c]);
    DigitsOfChar(c);
    var d := DigitsOf(s);
    if IsDigit(c) && |d| >= OtpDigits {
      assert (d + [c])[..OtpDigits] == d[..OtpDigits];
    }
  }

  /** The field's value passes through the filter unchanged when it is filtered again. */
  lemma SanitizeOtpIdempotent(s: string)
    ensures SanitizeOtp(SanitizeOtp(s)) == SanitizeOtp(s)
  {
  }

  /** Every code the server generates can be typed into the field as it is. */
  lemma GeneratedCodePassesSanitizer(n: nat)
    requires 100000 <= n <= 999999
    ensures SanitizeOtp(Decimal(n)) == Decimal(n)
  {
    DecimalOfSixDigitNumber(n);
  }

  /** The requests the page posts, with their bodies. */
  datatype Post =
    | ForgotPasswordPost(email: string)                          // '/api/forgot-password/'
    | VerifyOtpPost(email: string, otp: string)                  // 'api/verify-otp/'
    | ResetPasswordPost(email: string, otp: string, newPassword: string)  // 'api/reset-password/'

  /**
    How an `api.post` call settles: with the response body's `message`, or with an error
    whose response body may carry an `error` field.
  */
  datatype Reply = Success(message: string) | Failure(error: Option<string>)

  /** `err.response?.data?.error || fallback` */
  function ErrorText(error: Option<string>, fallback: string): string
  {
    if Truthy(error) then error.value else fallback
  }

  /** The message each handler shows when its post fails without an `error` field. */
  function Fallback(post: Post): string
  {
    match post
    case ForgotPasswordPost(_) => "Failed to send OTP"
    case VerifyOtpPost(_, _) => "Invalid OTP"
    case ResetPasswordPost(_, _, _) => "Failed to reset password"
  }

  /**
    The page's state hooks, with a record of what it did: the requests posted, those still
    awaiting their reply (in the order posted), those the server answered with success, and the
    routes navigated to.
  */
  datatype Screen = Screen(
    step: int, email: string, otp: string, newPassword: string, confirmPassword: string,
    message: string, loading: bool,
    posts: seq<Post>, pending: seq<Post>, accepted: seq<Post>, navigations: seq<string>)

  function Initial(): Screen
  {
    Screen(1, "", "", "", "", "", false, [], [], [], [])
  }

  /** A request goes out: `setIsLoading(true)`, `setMessage('')`, then `api.post`. */
  function Dispatch(s: Screen, post: Post): Screen
  {
    s.(loading := true, message := "", posts := s.posts + [post], pending := s.pending + [post])
  }

  /** `handleSendOTP` up to its `await`. */
  function StartSend(s: Screen): Screen
  {
    if s.email == "" then s.(message := ErrorMark + "Please enter your email")
    else Dispatch(s, ForgotPasswordPost(s.email))
  }

  /** `handleVerifyOTP` up to its `await`. */
  function StartVerify(s: Screen): Screen
  {
    if s.otp == "" then s.(message := ErrorMark + "Please enter the OTP")
    else Dispatch(s, VerifyOtpPost(s.email, s.otp))
  }

  /** `handleResetPassword` up to its `await`. */
  function StartReset(s: Screen): Screen
  {
    if s.newPassword == "" || s.confirmPassword == "" then s.(message := ErrorMark + "Please fill all fields")
    else if s.newPassword != s.confirmPassword then s.(message := ErrorMark + "Passwords do not match")
    else Dispatch(s, ResetPasswordPost(s.email, s.otp, s.newPassword))
  }

  /**
    The rest of a handler, when the i-th pending post settles: the success branch (step 2 for a
    code request, step 3 for a verification, the login route for a reset) or the `catch` branch,
    then `finally`'s `setIsLoading(false)`. The navigation happens two seconds later, a delay not
    modelled.
  */
  function Settle(s: Screen, i: nat, reply: Reply): Screen
    requires i < |s.pending|
  {
    var post := s.pending[i];
    var rest := s.(pending := s.pending[..i] + s.pending[i + 1..], loading := false);
    match reply
    case Success(m) =>
      var ok := rest.(message := SuccessMark + m, accepted := s.accepted + [post]);
      (match post
       case ForgotPasswordPost(_) => ok.(step := 2)
       case VerifyOtpPost(_, _) => ok.(step := 3)
       case ResetPasswordPost(_, _, _) => ok.(navigations := s.navigations + [LoginPath]))
    case Failure(e) => rest.(message := ErrorMark + ErrorText(e, Fallback(post)))
  }

  /** The back arrow. */
  function Back(s: Screen): Screen
  {
    if s.step == 1 then s.(navigations := s.navigations + [LoginPath]) else s.(step := s.step - 1)
  }

  /** The server has answered some request for a code with success. */
  predicate CodeSent(s: Screen)
  {
    exists p :: p in s.accepted && p.ForgotPasswordPost?
  }

  /** The server has answered some verification with success. */
  predicate CodeVerified(s: Screen)
  {
    exists p :: p in s.accepted && p.VerifyOtpPost?
  }

  /**
    What the wizard keeps under every interleaving: the step is 1, 2 or 3; pending and accepted
    requests are requests the page posted; step 2 is reached only after a code request succeeded
    and step 3 only after a verification succeeded; and the page posts a verification only after
    a code request succeeded, and a reset only after a verification succeeded.
  */
  predicate Inv(s: Screen)
  {
    && 1 <= s.step <= 3
    && (forall p :: p in s.pending ==> p in s.posts)
    && (forall p :: p in s.accepted ==> p in s.posts)
    && (s.step >= 2 ==> CodeSent(s))
    && (s.step == 3 ==> CodeVerified(s))
    && (CodeVerified(s) ==> CodeSent(s))
    && (forall p :: p in s.posts && p.VerifyOtpPost? ==> CodeSent(s))
    && (forall p :: p in s.posts && p.ResetPasswordPost? ==> CodeVerified(s))
  }

  lemma InitialInv()
    ensures Inv(Initial())
  {
  }

  /** Starting a code request, from the two steps that show the send button or the resend link. */
  lemma StartSendKeepsInv(s: Screen)
    requires Inv(s) && (s.step == 1 || s.step == 2)
    ensures Inv(StartSend(s))
  {
    var t := StartSend(s);
    assert forall p :: p in s.accepted ==> p in t.accepted;
  }

  /** Starting a verification, from step 2. */
  lemma StartVerifyKeepsInv(s: Screen)
    requires Inv(s) && s.step == 2
    ensures Inv(StartVerify(s))
  {
    var t := StartVerify(s);
    assert forall p :: p in s.accepted ==> p in t.accepted;
  }

  /** Starting a reset, from step 3. */
  lemma StartResetKeepsInv(s: Screen)
    requires Inv(s) && s.step == 3
    ensures Inv(StartReset(s))
  {
    var t := StartReset(s);
    assert forall p :: p in s.accepted ==> p in t.accepted;
  }

  /** Any pending post may settle, with any reply, at any step. */
  lemma SettleKeepsInv(s: Screen, i: nat, reply: Reply)
    requires Inv(s) && i < |s.pending|
    ensures Inv(Settle(s, i, reply))
  {
    var t := Settle(s, i, reply);
    var post := s.pending[i];
    assert s.pending == s.pending[..i] + [post] + s.pending[i + 1..];
    assert forall p :: p in t.pending ==> p in s.pending;
    assert forall p :: p in s.accepted ==> p in t.accepted;
    assert post in s.posts;
    if reply.Success? {
      assert post in t.accepted;
    }
  }

  lemma BackKeepsInv(s: Screen)
    requires Inv(s)
    ensures Inv(Back(s))
  {
  }

  /**
    `handleSendOTP` up to its `await` posts exactly when an e-mail is entered, then shows the
    loading state with no message; otherwise it only shows the error.
  */
  lemma StartSendSteps(s: Screen)
    ensures var t := StartSend(s);
      && t.step == s.step && t.accepted == s.accepted && t.navigations == s.navigations
      && (s.email == "" ==> t == s.(message := ErrorMark + "Please enter your email"))
      && (s.email != "" ==> && t.posts == s.posts + [ForgotPasswordPost(s.email)]
                            && t.pending == s.pending + [ForgotPasswordPost(s.email)]
                            && t.loading && t.message == "")
  {
  }

  /** `handleVerifyOTP` up to its `await` posts the current e-mail and code exactly when a code is entered. */
  lemma StartVerifySteps(s: Screen)
    ensures var t := StartVerify(s);
      && t.step == s.step && t.accepted == s.accepted && t.navigations == s.navigations
      && (s.otp == "" ==> t == s.(message := ErrorMark + "Please enter the OTP"))
      && (s.otp != "" ==> && t.posts == s.posts + [VerifyOtpPost(s.email, s.otp)]
                          && t.pending == s.pending + [VerifyOtpPost(s.email, s.otp)]
                          && t.loading && t.message == "")
  {
  }

  /**
    `handleResetPassword` up to its `await` posts only when both passwords are entered and
    equal, and otherwise shows which check failed.
  */
  lemma StartResetSteps(s: Screen)
    ensures var t := StartReset(s);
      var filled := s.newPassword != "" && s.confirmPassword != "";
      && t.step == s.step && t.accepted == s.accepted && t.navigations == s.navigations
      && (!filled ==> t == s.(message := ErrorMark + "Please fill all fields"))
      && (filled && s.newPassword != s.confirmPassword ==> t == s.(message := ErrorMark + "Passwords do not match"))
      && (filled && s.newPassword == s.confirmPassword ==>
            && t.posts == s.posts + [ResetPasswordPost(s.email, s.otp, s.newPassword)]
            && t.pending == s.pending + [ResetPasswordPost(s.email, s.otp, s.newPassword)]
            && t.loading && t.message == "")
  {
  }

  /**
    A settling post leaves the pending list exactly once and clears the loading state; only a
    success is recorded as accepted, moves the step (to 2 or 3, whatever the current step) or
    leaves for the login page, and a failure shows the server's error or the handler's fallback.
  */
  lemma SettleSteps(s: Screen, i: nat, reply: Reply)
    requires i < |s.pending|
    ensures var post, t := s.pending[i], Settle(s, i, reply);
      && multiset(t.pending) + multiset{post} == multiset(s.pending)
      && !t.loading && t.posts == s.posts && t.email == s.email && t.otp == s.otp
      && t.accepted == (if reply.Success? then s.accepted + [post] else s.accepted)
      && t.step == (if reply.Success? && post.ForgotPasswordPost? then 2
                    else if reply.Success? && post.VerifyOtpPost? then 3 else s.step)
      && t.navigations == (if reply.Success? && post.ResetPasswordPost?
                           then s.navigations + [LoginPath] else s.navigations)
      && t.message == (if reply.Success? then SuccessMark + reply.message
                       else ErrorMark + ErrorText(reply.error, Fallback(post)))
  {
    assert s.pending == s.pending[..i] + [s.pending[i]] + s.pending[i + 1..];
  }

  /** A handler whose own post, if it made one, settles before the next event. */
  function Complete(s: Screen, t: Screen, reply: Reply): Screen
  {
    if |t.pending| <= |s.pending| then t else Settle(t, |t.pending| - 1, reply)
  }

  function SendOtp(s: Screen, reply: Reply): Screen
  {
    Complete(s, StartSend(s), reply)
  }

  function VerifyOtp(s: Screen, reply: Reply): Screen
  {
    Complete(s, StartVerify(s), reply)
  }

  function ResetPassword(s: Screen, reply: Reply): Screen
  {
    Complete(s, StartReset(s), reply)
  }

  /**
    What the wizard promises when no request is in flight and every post settles before the
    next event: past step 1 the current e-mail is one the server accepted a code request for; at
    step 3 the current e-mail and code are a pair the server verified; and every reset posted
    carries a verified pair.
  */
  predicate Paired(s: Screen)
  {
    && 1 <= s.step <= 3 && s.pending == [] && !s.loading
    && (s.step >= 2 ==> ForgotPasswordPost(s.email) in s.accepted)
    && (s.step == 3 ==> VerifyOtpPost(s.email, s.otp) in s.accepted)
    && forall p :: p in s.posts && p.ResetPasswordPost? ==> VerifyOtpPost(p.email, p.otp) in s.accepted
  }

  lemma InitialPaired()
    ensures Paired(Initial())
  {
  }

  /** The one post a handler makes from a quiet page settles, with any reply, and the page is quiet again. */
  lemma SettleOnly(t: Screen, reply: Reply)
    requires |t.pending| == 1
    ensures var r := Settle(t, 0, reply);
      && r.pending == [] && !r.loading && r.email == t.email && r.otp == t.otp && r.posts == t.posts
      && r.accepted == (if reply.Success? then t.accepted + t.pending else t.accepted)
      && r.step == (if reply.Success? && t.pending[0].ForgotPasswordPost? then 2
                    else if reply.Success? && t.pending[0].VerifyOtpPost? then 3 else t.step)
  {
    SettleSteps(t, 0, reply);
    assert t.pending == [t.pending[0]];
  }

  lemma SendOtpKeepsPaired(s: Screen, reply: Reply)
    requires Paired(s) && (s.step == 1 || s.step == 2)
    ensures Paired(SendOtp(s, reply))
  {
    var t := StartSend(s);
    if t.pending != [] {
      SettleOnly(t, reply);
      var r := Settle(t, 0, reply);
      assert forall p :: p in s.accepted ==> p in r.accepted;
      assert forall p :: p in r.posts && p.ResetPasswordPost? ==> p in s.posts;
    }
  }

  lemma VerifyOtpKeepsPaired(s: Screen, reply: Reply)
    requires Paired(s) && s.step == 2
    ensures Paired(VerifyOtp(s, reply))
  {
    var t := StartVerify(s);
    if t.pending != [] {
      SettleOnly(t, reply);
      var r := Settle(t, 0, reply);
      assert forall p :: p in s.accepted ==> p in r.accepted;
      assert forall p :: p in r.posts && p.ResetPasswordPost? ==> p in s.posts;
    }
  }

  /** In sequential use a reset carries the pair verified at step 2. */
  lemma ResetPasswordKeepsPaired(s: Screen, reply: Reply)
    requires Paired(s) && s.step == 3
    ensures Paired(ResetPassword(s, reply))
  {
    var t := StartReset(s);
    if t.pending != [] {
      SettleOnly(t, reply);
      var r := Settle(t, 0, reply);
      assert forall p :: p in s.accepted ==> p in r.accepted;
      forall p | p in r.posts && p.ResetPasswordPost?
        ensures VerifyOtpPost(p.email, p.otp) in r.accepted
      {
        if p !in s.posts {
          assert p == ResetPasswordPost(s.email, s.otp, s.newPassword);
        }
      }
    }
  }

  lemma BackKeepsPaired(s: Screen)
    requires Paired(s)
    ensures Paired(Back(s))
  {
  }

  /** Typing into the field each step shows keeps the pairing. */
  lemma EditKeepsPaired(s: Screen, value: string)
    requires Paired(s)
    ensures s.step == 1 ==> Paired(s.(email := value))
    ensures s.step == 2 ==> Paired(s.(otp := SanitizeOtp(value)))
    ensures s.step == 3 ==> Paired(s.(newPassword := value)) && Paired(s.(confirmPassword := value))
  {
  }

  /**
    Without the sequential assumption the pairing fails. Click verify at step 2, click the back
    arrow while the post is in flight, and type another e-mail: the verification then succeeds,
    step 3 shows the new e-mail with the old code, and the reset posts a pair the page never sent
    for verification. Nothing stops this: the back arrow is never disabled and the e-mail field
    is shown at step 1.
  */
  lemma BackDuringVerifyBreaksPairing(s: Screen, other: string, m: string, password: string)
    requires Inv(s) && Paired(s) && s.step == 2 && s.otp != "" && other != s.email && password != ""
    requires VerifyOtpPost(other, s.otp) !in s.posts
    ensures var clicked := StartVerify(s);
      var edited := Back(clicked).(email := other);
      var verified := Settle(edited, 0, Success(m));
      var reset := StartReset(verified.(newPassword := password, confirmPassword := password));
      && clicked.pending == [VerifyOtpPost(s.email, s.otp)]
      && edited.step == 1
      && Inv(verified) && verified.step == 3 && verified.email == other && !Paired(verified)
      && Inv(reset) && reset.posts == verified.posts + [ResetPasswordPost(other, s.otp, password)]
      && VerifyOtpPost(other, s.otp) !in reset.posts
  {
    var clicked := StartVerify(s);
    StartVerifyKeepsInv(s);
    BackKeepsInv(clicked);
    var edited := Back(clicked).(email := other);
    SettleKeepsInv(edited, 0, Success(m));
    var verified := Settle(edited, 0, Success(m));
    assert VerifyOtpPost(other, s.otp) !in verified.accepted by {
      assert verified.accepted == s.accepted + [VerifyOtpPost(s.email, s.otp)];
      assert forall p :: p in s.accepted ==> p in s.posts;
    }
    StartResetKeepsInv(verified.(newPassword := password, confirmPassword := password));
  }

  /** The page's state, updated in place by its handlers. */
  class ResetWizard {
    var step: int
    var email: string
    var otp: string
    var newPassword: string
    var confirmPassword: string
    var message: string
    var loading: bool
    var posts: seq<Post>
    var pending: seq<Post>
    var accepted: seq<Post>
    var navigations: seq<string>

    function Snapshot(): Screen
      reads this
    {
      Screen(step, email, otp, newPassword, confirmPassword, message, loading,
             posts, pending, accepted, navigations)
    }

    ghost predicate Valid()
      reads this
    {
      Inv(Snapshot())
    }

    constructor ()
      ensures Snapshot() == Initial() && Valid()
    {
      step, email, otp, newPassword, confirmPassword, message := 1, "", "", "", "", "";
      loading := false;
      posts, pending, accepted, navigations := [], [], [], [];
    }

    /** The e-mail field, shown at step 1. */
    method ChangeEmail(value: string)
      requires Valid() && step == 1
      modifies this`email
      ensures Valid() && Snapshot() == old(Snapshot()).(email := value)
    {
      email := value;
    }

    /** The code field, shown at step 2: what is kept of the typed value. */
    method ChangeOtp(value: string)
      requires Valid() && step == 2
      modifies this`otp
      ensures Valid() && Snapshot() == old(Snapshot()).(otp := SanitizeOtp(value))
    {
      otp := SanitizeOtp(value);
    }

    /** The new-password field, shown at step 3. */
    method ChangeNewPassword(value: string)
      requires Valid() && step == 3
      modifies this`newPassword
      ensures Valid() && Snapshot() == old(Snapshot()).(newPassword := value)
    {
      newPassword := value;
    }

    /** The confirmation field, shown at step 3. */
    method ChangeConfirmPassword(value: string)
      requires Valid() && step == 3
      modifies this`confirmPassword
      ensures Valid() && Snapshot() == old(Snapshot()).(confirmPassword := value)
    {
      confirmPassword := value;
    }

    /** The post every handler makes once its checks pass. */
    method Send(post: Post)
      requires Valid() && (post.VerifyOtpPost? ==> CodeSent(Snapshot()))
      requires post.ResetPasswordPost? ==> CodeVerified(Snapshot())
      modifies this`loading, this`message, this`posts, this`pending
      ensures Valid() && Snapshot() == Dispatch(old(Snapshot()), post)
    {
      loading := true;
      message := "";
      posts := posts + [post];
      pending := pending + [post];
    }

    /**
      The send button and the Enter key (step 1) and the resend link (step 2), up to the
      `await`. Neither the resend link nor the Enter key is disabled while loading.
    */
    method HandleSendOtp()
      requires Valid() && (step == 1 || step == 2)
      modifies this
      ensures Valid() && Snapshot() == StartSend(old(Snapshot()))
    {
      StartSendKeepsInv(Snapshot());
      if email == "" {
        message := ErrorMark + "Please enter your email";
        return;
      }
      Send(ForgotPasswordPost(email));
    }

    /** The verify button and the Enter key, at step 2, up to the `await`. */
    method HandleVerifyOtp()
      requires Valid() && step == 2
      modifies this
      ensures Valid() && Snapshot() == StartVerify(old(Snapshot()))
    {
      StartVerifyKeepsInv(Snapshot());
      if otp == "" {
        message := ErrorMark + "Please enter the OTP";
        return;
      }
      Send(VerifyOtpPost(email, otp));
    }

    /** The reset button and the Enter key on the confirmation, at step 3, up to the `await`. */
    method HandleResetPassword()
      requires Valid() && step == 3
      modifies this
      ensures Valid() && Snapshot() == StartReset(old(Snapshot()))
    {
      StartResetKeepsInv(Snapshot());
      if newPassword == "" || confirmPassword == "" {
        message := ErrorMark + "Please fill all fields";
        return;
      }
      if newPassword != confirmPassword {
        message := ErrorMark + "Passwords do not match";
        return;
      }
      Send(ResetPasswordPost(email, otp, newPassword));
    }

    /** The handler that posted `pending[i]` resumes with its reply. */
    method Resume(i: nat, reply: Reply)
      requires Valid() && i < |pending|
      modifies this
      ensures Valid() && Snapshot() == Settle(old(Snapshot()), i, reply)
    {
      SettleKeepsInv(Snapshot(), i, reply);
      var post := pending[i];
      pending := pending[..i] + pending[i + 1..];
      match reply {
        case Success(m) =>
          message := SuccessMark + m;
          accepted := accepted + [post];
          match post {
            case ForgotPasswordPost(_) =>
              step := 2;
            case VerifyOtpPost(_, _) =>
              step := 3;
            case ResetPasswordPost(_, _, _) =>
              navigations := navigations + [LoginPath];
          }
        case Failure(e) =>
          message := ErrorMark + ErrorText(e, Fallback(post));
      }
      loading := false;
    }

    /** The back arrow, never disabled. */
    method GoBack()
      requires Valid()
      modifies this
      ensures Valid() && Snapshot() == Back(old(Snapshot()))
    {
      BackKeepsInv(Snapshot());
      if step == 1 {
        navigations := navigations + [LoginPath];
      } else {
        step := step - 1;
      }
    }
  }

  /**
    A whole reset through the page, each post settling before the next event: the three
    requests go out in order, the reset carries the e-mail and the code as filtered by the
    field, and the page leaves for the login route.
  */
  lemma HappyPath(email: string, typed: string, password: string, m1: string, m2: string, m3: string)
    requires email != "" && SanitizeOtp(typed) != "" && password != ""
    ensures var code := SanitizeOtp(typed);
      var sent := SendOtp(Initial().(email := email), Success(m1));
      var verified := VerifyOtp(sent.(otp := code), Success(m2));
      var done := ResetPassword(verified.(newPassword := password, confirmPassword := password), Success(m3));
      && sent.step == 2 && verified.step == 3 && Paired(done)
      && done.posts == [ForgotPasswordPost(email), VerifyOtpPost(email, code),
                        ResetPasswordPost(email, code, password)]
      && done.navigations == [LoginPath]
  {
    SequentialReset(email, SanitizeOtp(typed), password, m1, m2, m3);
    SequentialResetPaired(email, SanitizeOtp(typed), password, m1, m2, m3);
  }

  /** The three successful requests of a reset, in order, ending on the login route. */
  lemma SequentialReset(email: string, code: string, password: string, m1: string, m2: string, m3: string)
    requires email != "" && code != "" && password != ""
    ensures var sent := SendOtp(Initial().(email := email), Success(m1));
      var verified := VerifyOtp(sent.(otp := code), Success(m2));
      var done := ResetPassword(verified.(newPassword := password, confirmPassword := password), Success(m3));
      && sent.step == 2 && verified.step == 3
      && done.posts == [ForgotPasswordPost(email), VerifyOtpPost(email, code),
                        ResetPasswordPost(email, code, password)]
      && done.navigations == [LoginPath]
  {
    var start := Initial().(email := email);
    SendOtpSucceeds(start, m1);
    var sent := SendOtp(start, Success(m1));
    var typedIn := sent.(otp := code);
    VerifyOtpSucceeds(typedIn, m2);
    var verified := VerifyOtp(typedIn, Success(m2));
    var filled := verified.(newPassword := password, confirmPassword := password);
    ResetPasswordSucceeds(filled, m3);
    assert [ForgotPasswordPost(email)] + [VerifyOtpPost(email, code)] + [ResetPasswordPost(email, code, password)]
        == [ForgotPasswordPost(email), VerifyOtpPost(email, code), ResetPasswordPost(email, code, password)];
  }

  /** The same reset keeps the pairing at every step. */
  lemma SequentialResetPaired(email: string, code: string, password: string, m1: string, m2: string, m3: string)
    requires email != "" && code != "" && password != ""
    ensures var sent := SendOtp(Initial().(email := email), Success(m1));
      var verified := VerifyOtp(sent.(otp := code), Success(m2));
      var done := ResetPassword(verified.(newPassword := password, confirmPassword := password), Success(m3));
      Paired(sent) && Paired(verified) && Paired(done)
  {
    var start := Initial().(email := email);
    SendOtpKeepsPaired(start, Success(m1));
    SendOtpSucceeds(start, m1);
    var sent := SendOtp(start, Success(m1));
    EditKeepsPaired(sent, code);
    VerifyOtpKeepsPaired(sent.(otp := code), Success(m2));
    VerifyOtpSucceeds(sent.(otp := code), m2);
    var verified := VerifyOtp(sent.(otp := code), Success(m2));
    EditKeepsPaired(verified, password);
    EditKeepsPaired(verified.(newPassword := password), password);
    ResetPasswordKeepsPaired(verified.(newPassword := password, confirmPassword := password), Success(m3));
  }

  /** A successful code request for an entered e-mail posts it and moves to step 2. */
  lemma SendOtpSucceeds(s: Screen, m: string)
    requires s.email != ""
    ensures var t := SendOtp(s, Success(m));
      && t.step == 2 && t.email == s.email && t.otp == s.otp && t.pending == s.pending
      && t.posts == s.posts + [ForgotPasswordPost(s.email)] && t.navigations == s.navigations
  {
    SettleSteps(StartSend(s), |s.pending|, Success(m));
    assert (s.pending + [ForgotPasswordPost(s.email)])[..|s.pending|] == s.pending;
  }

  /** A successful verification of an entered code posts the e-mail and code and moves to step 3. */
  lemma VerifyOtpSucceeds(s: Screen, m: string)
    requires s.otp != ""
    ensures var t := VerifyOtp(s, Success(m));
      && t.step == 3 && t.email == s.email && t.otp == s.otp && t.pending == s.pending
      && t.posts == s.posts + [VerifyOtpPost(s.email, s.otp)] && t.navigations == s.navigations
  {
    SettleSteps(StartVerify(s), |s.pending|, Success(m));
    assert (s.pending + [VerifyOtpPost(s.email, s.otp)])[..|s.pending|] == s.pending;
  }

  /** A successful reset with matching passwords posts the pair and leaves for the login page. */
  lemma ResetPasswordSucceeds(s: Screen, m: string)
    requires s.newPassword != "" && s.newPassword == s.confirmPassword
    ensures var t := ResetPassword(s, Success(m));
      && t.step == s.step && t.pending == s.pending
      && t.posts == s.posts + [ResetPasswordPost(s.email, s.otp, s.newPassword)]
      && t.navigations == s.navigations + [LoginPath]
  {
    SettleSteps(StartReset(s), |s.pending|, Success(m));
    assert (s.pending + [ResetPasswordPost(s.email, s.otp, s.newPassword)])[..|s.pending|] == s.pending;
  }
}
