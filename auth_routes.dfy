/**
 * The route handlers of `src/routes/userAuth.ts` as they run: one object holds the
 * module-level challenge map and the user table behind Prisma, and each handler is a
 * method that updates them step by step, in the order the handler does. Every method is
 * proved to produce exactly the outcome that `AuthFlow` specifies for its route, and to
 * keep the store invariant `AuthFlow.Valid`.
 */
module AuthRoutes {
  import opened Wrappers
  import opened AuthFlow

  class AuthRouter {
    /** The module-level `otpMap`. */
    var otpMap: map<string, Challenge>
    /** The user table, keyed by email (the unique column `findUnique` looks up). */
    var users: map<string, User>
    /** The next auto-increment id the table hands out. */
    var nextId: nat
    /** The mails handed to nodemailer so far. */
    var outbox: seq<Mail>
    /** Signing key, bcrypt, and the email validator. */
    const env: Env

    function Snapshot(): Store
      reads this
    {
      Store(otpMap, users, nextId, outbox)
    }

    ghost predicate Valid()
      reads this
    {
      AuthFlow.Valid(Snapshot())
    }

    /** The router at start-up: `new Map()` over an existing user table. */
    constructor (env: Env, users: map<string, User>, nextId: nat)
      requires AuthFlow.Valid(Store(map[], users, nextId, []))
      ensures Valid() && this.env == env
      ensures Snapshot() == Store(map[], users, nextId, [])
    {
      this.env := env;
      this.otpMap := map[];
      this.users := users;
      this.nextId := nextId;
      this.outbox := [];
    }

    /** POST /login. */
    method Login(email: Option<string>, password: Option<string>, code: int, now: int, mailOk: bool)
      returns (r: Response)
      requires Valid() && IsOtpCode(code)
      modifies this
      ensures Valid()
      ensures Outcome(Snapshot(), r) == AuthFlow.Login(env, old(Snapshot()), email, password, code, now, mailOk)
    {
      if !Truthy(email) || !Truthy(password) {
        return Fail(400, MsgFieldsRequired);
      }
      var e := email.value;
      if e !in users {
        return Fail(400, MsgInvalidCredentials);
      }
      var isPasswordValid := env.compare(password.value, users[e].password);
      if !isPasswordValid {
        return Fail(400, MsgInvalidCredentials);
      }
      var otp := OtpString(code);
      otpMap := otpMap[e := Challenge(otp, now + OtpLifetime, None, None)];
      if !mailOk {
        return Fail(500, MsgLoginFailed);
      }
      outbox := outbox + [LoginMail(e, otp)];
      r := Response(200, NextStep("OTP sent", "verify_otp"));
    }

    /** POST /signup. */
    method Signup(email: Option<string>, password: Option<string>, name: Option<string>,
                  code: int, now: int, mailOk: bool)
      returns (r: Response)
      requires Valid() && IsOtpCode(code)
      modifies this
      ensures Valid()
      ensures Outcome(Snapshot(), r) == AuthFlow.Signup(env, old(Snapshot()), email, password, name, code, now, mailOk)
    {
      var errors := SignupErrors(env, email, password, name);
      if errors != [] {
        return Response(400, ValidationErrors(errors));
      }
      if email.None? {
        // the lookup by an absent email throws
        return Fail(500, MsgSignupFailed);
      }
      var e := email.value;
      if e in users {
        return Fail(400, MsgEmailInUse);
      }
      var hashedPassword := env.hash(password.value);
      otpMap := otpMap[e := Challenge(OtpString(code), now + OtpLifetime, Some(hashedPassword), name)];
      if !mailOk {
        return Fail(500, MsgSignupFailed);
      }
      outbox := outbox + [SignupMail(e, otpMap[e].otp)];
      r := Response(200, NextStep("OTP sent", "verify_otp"));
    }

    /** POST /social-login. */
    method SocialLogin(email: Option<string>, name: Option<string>) returns (r: Response)
      requires Valid()
      modifies this
      ensures Valid()
      ensures Outcome(Snapshot(), r) == AuthFlow.SocialLogin(env, old(Snapshot()), email, name)
    {
      if email.None? {
        return Fail(500, MsgSocialFailed);
      }
      var e := email.value;
      var user: User;
      if e in users {
        user := users[e];
      } else {
        if name.None? {
          // the create misses the required name column
          return Fail(500, MsgSocialFailed);
        }
        user := User(nextId, name.value, e, "");
        users := users[e := user];
        nextId := nextId + 1;
      }
      r := SessionResponse(env, Some(user));
    }

    /** POST /verify-otp: the rejection does not end the handler. */
    method VerifyOtp(email: Option<string>, otp: Option<string>, now: int) returns (r: Response)
      requires Valid()
      modifies this
      ensures Valid()
      ensures Outcome(Snapshot(), r) == AuthFlow.VerifyOtp(env, old(Snapshot()), email, otp, now)
    {
      var record := Lookup(otpMap, email);
      var sent: Option<Response> := None;
      if Rejects(record, otp, now) {
        sent := Some(Fail(400, MsgInvalidOtp));
      }
      otpMap := Remove(otpMap, email);
      if email.None? {
        // the lookup by an absent email throws
        return Answer(sent, Fail(500, MsgVerifyFailed));
      }
      var e := email.value;
      var user: Option<User> := if e in users then Some(users[e]) else None;
      if record.Some? && user.None? {
        var c := record.value;
        if c.password.Some? && c.name.Some? {
          var u := User(nextId, c.name.value, e, c.password.value);
          users := users[e := u];
          nextId := nextId + 1;
          user := Some(u);
        } else {
          sent := Some(Answer(sent, Fail(500, MsgCreateFailed)));
        }
      }
      r := Answer(sent, SessionResponse(env, user));
    }

    /**
     * POST /resend-otp: neither the 400 nor the 404 ends the handler, but a 404 written
     * after the 400 throws "headers already sent" and ends it in the `catch`.
     */
    method ResendOtp(email: Option<string>, code: int, now: int, mailOk: bool) returns (r: Response)
      requires Valid() && IsOtpCode(code)
      modifies this
      ensures Valid()
      ensures Outcome(Snapshot(), r) == AuthFlow.ResendOtp(env, old(Snapshot()), email, code, now, mailOk)
    {
      var sent: Option<Response> := None;
      if !Truthy(email) {
        sent := Some(Fail(400, MsgEmailRequired));
      }
      if email.None? {
        // the lookup by an absent email throws
        return Answer(sent, Fail(500, MsgResendFailed));
      }
      var e := email.value;
      if e !in users {
        if sent.Some? {
          // the second write throws; the catch's write throws too
          return sent.value;
        }
        sent := Some(Fail(404, MsgUserNotFound));
      }
      var otp := OtpString(code);
      otpMap := otpMap[e := Challenge(otp, now + OtpLifetime, None, None)];
      if !mailOk {
        return Answer(sent, Fail(500, MsgResendFailed));
      }
      outbox := outbox + [ResendMail(e, otp)];
      r := Answer(sent, Response(200, Notice("OTP resent")));
    }
  }
}
