/**
 * The OTP authentication flow of `src/routes/userAuth.ts`, stated as pure transitions.
 *
 * The state a request sees is a `Store`: the in-memory challenge map `otpMap`, the user
 * table (keyed by email, with the next auto-increment id) and the mails sent so far.
 * Each route handler is a function from the store before the request (and the request's
 * inputs) to the store after it and the FIRST response the handler sends. A second write
 * throws "headers already sent" into the handler's `catch`, whose own write throws again:
 * the handler stops there, and the store is what it was at the second write.
 *
 * The foreign libraries are fields of `Env`: bcrypt's `hash` (salt folded in) and `compare`,
 * express-validator's `isEmail`, and the signing key of jsonwebtoken. `Date.now()` is the
 * input `now` (milliseconds) and the `Math.random` code is the input `code`.
 */
module AuthFlow {
  import opened Wrappers
  import Decimal
  import JsString

  /** Lifetime of a challenge: five minutes in milliseconds. */
  const OtpLifetime: int := 5 * 60 * 1000
  /** `expiresIn` of every session token: one hour in seconds. */
  const TokenLifetime: nat := 60 * 60
  /** The signing key used when `JWT_SECRET_KEY` is unset or empty. */
  const DefaultSecretKey: string := "your_secret"

  const MsgFieldsRequired := "Email and password are required"
  const MsgInvalidCredentials := "Invalid credentials"
  const MsgLoginFailed := "Failed to log in"
  const MsgInvalidEmail := "Invalid email format"
  const MsgShortPassword := "Password must be at least 6 characters long"
  const MsgNameRequired := "Name is required"
  const MsgEmailInUse := "Email already in use"
  const MsgSignupFailed := "Failed to initiate signup"
  const MsgSocialFailed := "Failed to process social login"
  const MsgInvalidOtp := "Invalid or expired OTP"
  const MsgCreateFailed := "Failed to create user"
  const MsgVerifyFailed := "Failed to verify OTP"
  const MsgEmailRequired := "Email is required"
  const MsgUserNotFound := "User not found"
  const MsgResendFailed := "Failed to resend OTP"

  /** A row of the user table. */
  datatype User = User(id: nat, name: string, email: string, password: string)

  /** A pending challenge; a signup challenge also carries the password hash and the name. */
  datatype Challenge = Challenge(otp: string, expires: int, password: Option<string>, name: Option<string>)

  /** A mail handed to the mail transport. */
  datatype Mail = Mail(to: string, subject: string, text: string)

  datatype Store = Store(
    otpMap: map<string, Challenge>,
    users: map<string, User>,
    nextId: nat,
    outbox: seq<Mail>)

  /** The collaborators: signing key, password hasher and checker, email-format validator. */
  datatype Env = Env(
    secretKey: string,
    hash: string -> string,
    compare: (string, string) -> bool,
    isEmail: string -> bool)

  /** The claim `{ id: user?.id, email: user?.email }` a session token is signed over. */
  datatype Claim = Claim(id: Option<nat>, email: Option<string>)

  /** A signed session token: its claim, the key it was signed with, its lifetime in seconds. */
  datatype Token = Token(claim: Claim, key: string, expiresIn: nat)

  /** The JSON body of a response. */
  datatype Body =
    | ErrorBody(error: string)
    | ValidationErrors(messages: seq<string>)
    | NextStep(message: string, step: string)
    | Notice(message: string)
    | SessionBody(token: Token, name: Option<string>, email: Option<string>)

  datatype Response = Response(status: nat, body: Body)

  /** The store after a request and the first response sent for it. */
  datatype Outcome = Outcome(store: Store, response: Response)

  function Fail(status: nat, message: string): Response {
    Response(status, ErrorBody(message))
  }

  /** `process.env.JWT_SECRET_KEY || "your_secret"`. */
  function SecretKey(envVar: Option<string>): string {
    JsString.Or(envVar, DefaultSecretKey)
  }

  /** A body field is truthy in JavaScript: present and not the empty string. */
  predicate Truthy(field: Option<string>) {
    field.Some? && field.value != ""
  }

  /** What a validator sees of a body field: an absent field reads as "". */
  function Text(field: Option<string>): string {
    field.GetOr("")
  }

  /** Once a response is sent, later ones are not delivered. */
  function Answer(sent: Option<Response>, r: Response): Response {
    sent.GetOr(r)
  }

  /** `Math.floor(100000 + Math.random() * 900000)` lies in this range. */
  predicate IsOtpCode(code: int) {
    100000 <= code <= 999999
  }

  /** The passcode `code.toString()`: six decimal digits, no leading zero, denoting `code`. */
  function OtpString(code: int): (otp: string)
    requires IsOtpCode(code)
    ensures |otp| == 6 && Decimal.AllDigits(otp) && otp[0] != '0'
    ensures Decimal.Parse(otp) == code
  {
    assert Decimal.Pow10(5) == 100000 && Decimal.Pow10(6) == 1000000;
    Decimal.ShowLength(code, 5);
    Decimal.ParseShow(code);
    Decimal.Show(code)
  }

  /** A challenge issued at `now` for `code`, good for five minutes. */
  function NewChallenge(code: int, now: int, password: Option<string>, name: Option<string>): (c: Challenge)
    requires IsOtpCode(code)
    ensures c.expires - now == 300000 && |c.otp| == 6 && Decimal.AllDigits(c.otp) && Decimal.Parse(c.otp) == code
    ensures c.password == password && c.name == name
  {
    Challenge(OtpString(code), now + OtpLifetime, password, name)
  }

  /** `otpMap.get(email)`; no entry is keyed by an absent email. */
  function Lookup(m: map<string, Challenge>, email: Option<string>): Option<Challenge> {
    if email.Some? && email.value in m then Some(m[email.value]) else None
  }

  /** `otpMap.delete(email)`. */
  function Remove(m: map<string, Challenge>, email: Option<string>): (r: map<string, Challenge>)
    ensures email.Some? ==> email.value !in r
    ensures forall e :: Some(e) != email ==> (e in r <==> e in m)
    ensures forall e :: e in r ==> r[e] == m[e]
  {
    if email.Some? then m - {email.value} else m
  }

  /** The rejection test of `/verify-otp`: no challenge, another code, or past the expiry. */
  predicate Rejects(record: Option<Challenge>, otp: Option<string>, now: int) {
    record.None? || otp != Some(record.value.otp) || now > record.value.expires
  }

  /** `jwt.sign({ id: user?.id, email: user?.email }, secretKey, { expiresIn: 60 * 60 })`. */
  function Sign(env: Env, user: Option<User>): Token {
    match user
    case Some(u) => Token(Claim(Some(u.id), Some(u.email)), env.secretKey, TokenLifetime)
    case None => Token(Claim(None, None), env.secretKey, TokenLifetime)
  }

  /** `res.json({ token, name: user?.name, email: user?.email })`. */
  function SessionResponse(env: Env, user: Option<User>): Response {
    match user
    case Some(u) => Response(200, SessionBody(Sign(env, user), Some(u.name), Some(u.email)))
    case None => Response(200, SessionBody(Sign(env, user), None, None))
  }

  /**
   * What the store keeps true: the table is keyed by each row's email, ids are below the
   * next id and distinct; every challenge code is six decimal digits, and a challenge
   * carries a password hash exactly when it carries a name (a signup challenge).
   */
  predicate Valid(s: Store) {
    (forall e :: e in s.users ==> s.users[e].email == e && s.users[e].id < s.nextId) &&
    (forall e, f :: e in s.users && f in s.users && s.users[e].id == s.users[f].id ==> e == f) &&
    (forall e :: e in s.otpMap ==> |s.otpMap[e].otp| == 6 && Decimal.AllDigits(s.otpMap[e].otp)) &&
    (forall e :: e in s.otpMap ==> (s.otpMap[e].password.Some? <==> s.otpMap[e].name.Some?))
  }

  // ---------------------------------------------------------------- POST /login

  /** Both fields given, the email belongs to a user, and the password checks against the hash. */
  predicate CredentialsOk(env: Env, s: Store, email: Option<string>, password: Option<string>) {
    Truthy(email) && Truthy(password) && email.value in s.users &&
    env.compare(password.value, s.users[email.value].password)
  }

  function LoginMail(email: string, otp: string): Mail {
    Mail(email, "Your Login OTP", "Your OTP is: " + otp)
  }

  function Login(env: Env, s: Store, email: Option<string>, password: Option<string>,
                 code: int, now: int, mailOk: bool): (o: Outcome)
    requires IsOtpCode(code)
    ensures o.store.users == s.users && o.store.nextId == s.nextId
    ensures o.response.status == 400 <==> !CredentialsOk(env, s, email, password)
    ensures o.response.status == 400 ==> o.store == s
    ensures !Truthy(email) || !Truthy(password) ==> o.response == Fail(400, MsgFieldsRequired)
    ensures Truthy(email) && Truthy(password) && !CredentialsOk(env, s, email, password) ==>
      o.response == Fail(400, MsgInvalidCredentials)
    ensures CredentialsOk(env, s, email, password) ==>
      o.store.otpMap == s.otpMap[email.value := NewChallenge(code, now, None, None)]
    ensures CredentialsOk(env, s, email, password) ==>
      (o.response == Response(200, NextStep("OTP sent", "verify_otp")) <==> mailOk) &&
      (!mailOk ==> o.response == Fail(500, MsgLoginFailed))
    ensures o.store.outbox == s.outbox + if CredentialsOk(env, s, email, password) && mailOk
                                         then [LoginMail(email.value, OtpString(code))] else []
    ensures Valid(s) ==> Valid(o.store)
  {
    if !Truthy(email) || !Truthy(password) then Outcome(s, Fail(400, MsgFieldsRequired))
    else if email.value !in s.users then Outcome(s, Fail(400, MsgInvalidCredentials))
    else if !env.compare(password.value, s.users[email.value].password) then
      Outcome(s, Fail(400, MsgInvalidCredentials))
    else
      var c := NewChallenge(code, now, None, None);
      var s1 := s.(otpMap := s.otpMap[email.value := c]);
      if mailOk then
        Outcome(s1.(outbox := s1.outbox + [LoginMail(email.value, c.otp)]),
                Response(200, NextStep("OTP sent", "verify_otp")))
      else Outcome(s1, Fail(500, MsgLoginFailed))
  }

  // ---------------------------------------------------------------- POST /signup

  /** U+FE0E and U+FE0F, the presentation selectors that validator's `isLength` does not count. */
  predicate IsPresentationSelector(c: char) {
    c == '\U{FE0E}' || c == '\U{FE0F}'
  }

  /**
   * The length `isLength` measures: the code points of `s` other than the presentation
   * selectors (a surrogate pair, which it counts once, is one `char` here).
   */
  function ValidatorLength(s: string): (n: nat)
    ensures n <= |s|
    ensures n == |s| <==> forall i :: 0 <= i < |s| ==> !IsPresentationSelector(s[i])
  {
    if s == [] then 0
    else (if IsPresentationSelector(s[0]) then 0 else 1) + ValidatorLength(s[1..])
  }

  /** The messages of the failed checks: email format, password length, non-empty name. */
  function SignupErrors(env: Env, email: Option<string>, password: Option<string>, name: Option<string>)
    : (errors: seq<string>)
    ensures errors == [] <==> env.isEmail(Text(email)) && ValidatorLength(Text(password)) >= 6 && Text(name) != ""
    ensures errors == [] ==> password.Some? && name.Some? && name.value != ""
    ensures MsgShortPassword in errors <==> ValidatorLength(Text(password)) < 6
  {
    (if env.isEmail(Text(email)) then [] else [MsgInvalidEmail]) +
    (if ValidatorLength(Text(password)) >= 6 then [] else [MsgShortPassword]) +
    (if Text(name) != "" then [] else [MsgNameRequired])
  }

  function SignupMail(email: string, otp: string): Mail {
    Mail(email, "Verify your account", "Your signup OTP is: " + otp)
  }

  function Signup(env: Env, s: Store, email: Option<string>, password: Option<string>, name: Option<string>,
                  code: int, now: int, mailOk: bool): (o: Outcome)
    requires IsOtpCode(code)
    ensures o.store.users == s.users && o.store.nextId == s.nextId
    ensures SignupErrors(env, email, password, name) != [] ==>
      o == Outcome(s, Response(400, ValidationErrors(SignupErrors(env, email, password, name))))
    ensures email.Some? && email.value in s.users ==> o.store == s && o.response.status == 400
    ensures SignupErrors(env, email, password, name) == [] && email.Some? && email.value in s.users ==>
      o.response == Fail(400, MsgEmailInUse)
    ensures SignupErrors(env, email, password, name) == [] && email.Some? && email.value !in s.users ==>
      o.store.otpMap ==
        s.otpMap[email.value := NewChallenge(code, now, Some(env.hash(password.value)), Some(name.value))] &&
      o.store.outbox == s.outbox + (if mailOk then [SignupMail(email.value, OtpString(code))] else []) &&
      o.response == if mailOk then Response(200, NextStep("OTP sent", "verify_otp")) else Fail(500, MsgSignupFailed)
    ensures email.None? ==> o.store == s && o.response.status != 200
    ensures Valid(s) ==> Valid(o.store)
  {
    var errors := SignupErrors(env, email, password, name);
    if errors != [] then Outcome(s, Response(400, ValidationErrors(errors)))
    else if email.None? then Outcome(s, Fail(500, MsgSignupFailed))
    else if email.value in s.users then Outcome(s, Fail(400, MsgEmailInUse))
    else
      var c := NewChallenge(code, now, Some(env.hash(password.value)), Some(name.value));
      var s1 := s.(otpMap := s.otpMap[email.value := c]);
      if mailOk then
        Outcome(s1.(outbox := s1.outbox + [SignupMail(email.value, c.otp)]),
                Response(200, NextStep("OTP sent", "verify_otp")))
      else Outcome(s1, Fail(500, MsgSignupFailed))
  }

  // ---------------------------------------------------------------- POST /social-login

  function SocialLogin(env: Env, s: Store, email: Option<string>, name: Option<string>): (o: Outcome)
    ensures o.store.otpMap == s.otpMap && o.store.outbox == s.outbox
    ensures email.None? ==> o == Outcome(s, Fail(500, MsgSocialFailed))
    ensures email.Some? && email.value in s.users ==>
      o == Outcome(s, SessionResponse(env, Some(s.users[email.value])))
    ensures email.Some? && email.value !in s.users && name.Some? ==>
      var u := User(s.nextId, name.value, email.value, "");
      o.store.users == s.users[email.value := u] && o.store.nextId == s.nextId + 1 &&
      o.response == SessionResponse(env, Some(u))
    ensures email.Some? && email.value !in s.users && name.None? ==>
      o == Outcome(s, Fail(500, MsgSocialFailed))
    ensures Valid(s) ==> Valid(o.store)
  {
    if email.None? then Outcome(s, Fail(500, MsgSocialFailed))
    else if email.value in s.users then Outcome(s, SessionResponse(env, Some(s.users[email.value])))
    else if name.None? then Outcome(s, Fail(500, MsgSocialFailed))
    else
      var u := User(s.nextId, name.value, email.value, "");
      Outcome(s.(users := s.users[email.value := u], nextId := s.nextId + 1), SessionResponse(env, Some(u)))
  }

  // ---------------------------------------------------------------- POST /verify-otp

  /** The user a challenge creates: only when it carries both the password hash and the name. */
  function CreatedUser(s: Store, email: string, record: Challenge): Option<User> {
    if record.password.Some? && record.name.Some? then
      Some(User(s.nextId, record.name.value, email, record.password.value))
    else None
  }

  function VerifyOtp(env: Env, s: Store, email: Option<string>, otp: Option<string>, now: int): (o: Outcome)
    ensures o.response.status == 400 <==> Rejects(Lookup(s.otpMap, email), otp, now)
    ensures o.response.status == 400 ==> o.response == Fail(400, MsgInvalidOtp)
    ensures o.store.otpMap == Remove(s.otpMap, email) && o.store.outbox == s.outbox
    ensures email.Some? ==> email.value !in o.store.otpMap
    ensures o.store.users != s.users <==>
      email.Some? && email.value in s.otpMap && email.value !in s.users &&
      CreatedUser(s, email.value, s.otpMap[email.value]).Some?
    ensures o.store.users != s.users ==>
      o.store.users == s.users[email.value := CreatedUser(s, email.value, s.otpMap[email.value]).value] &&
      o.store.nextId == s.nextId + 1
    ensures o.store.users == s.users ==> o.store.nextId == s.nextId
    ensures o.response.status == 200 ==>
      email.Some? && email.value in o.store.users &&
      o.response == SessionResponse(env, Some(o.store.users[email.value]))
    ensures !Rejects(Lookup(s.otpMap, email), otp, now) ==>
      email.Some? && email.value in s.otpMap &&
      ((email.value in s.users || CreatedUser(s, email.value, s.otpMap[email.value]).Some?) ==>
         email.value in o.store.users && o.response == SessionResponse(env, Some(o.store.users[email.value]))) &&
      ((email.value !in s.users && CreatedUser(s, email.value, s.otpMap[email.value]).None?) ==>
         o.response == Fail(500, MsgCreateFailed))
    ensures Valid(s) ==> Valid(o.store)
  {
    var record := Lookup(s.otpMap, email);
    var sent := if Rejects(record, otp, now) then Some(Fail(400, MsgInvalidOtp)) else None;
    var s1 := s.(otpMap := Remove(s.otpMap, email));
    if email.None? then Outcome(s1, Answer(sent, Fail(500, MsgVerifyFailed)))
    else if email.value in s1.users then
      Outcome(s1, Answer(sent, SessionResponse(env, Some(s1.users[email.value]))))
    else if record.None? then Outcome(s1, Answer(sent, SessionResponse(env, None)))
    else match CreatedUser(s1, email.value, record.value)
      case None => Outcome(s1, Answer(sent, Fail(500, MsgCreateFailed)))
      case Some(u) =>
        Outcome(s1.(users := s1.users[email.value := u], nextId := s1.nextId + 1),
                Answer(sent, SessionResponse(env, Some(u))))
  }

  // ---------------------------------------------------------------- POST /resend-otp

  function ResendMail(email: string, otp: string): Mail {
    Mail(email, "Your OTP (Resent)", "Your new OTP is: " + otp)
  }

  /**
   * The store changes only when the handler gets past both checks without a second response.
   * A 404 written after the 400 throws "headers already sent" into the `catch`, so an email
   * that is absent, or "" with no user, writes nothing.
   */
  predicate ResendWrites(s: Store, email: Option<string>) {
    email.Some? && (email.value != "" || email.value in s.users)
  }

  function ResendOtp(env: Env, s: Store, email: Option<string>, code: int, now: int, mailOk: bool): (o: Outcome)
    requires IsOtpCode(code)
    ensures o.store.users == s.users && o.store.nextId == s.nextId
    ensures !ResendWrites(s, email) ==> o == Outcome(s, Fail(400, MsgEmailRequired))
    ensures ResendWrites(s, email) ==>
      o.store.otpMap == s.otpMap[email.value := NewChallenge(code, now, None, None)] &&
      o.store.outbox == s.outbox + (if mailOk then [ResendMail(email.value, OtpString(code))] else [])
    ensures !Truthy(email) ==> o.response == Fail(400, MsgEmailRequired)
    ensures Truthy(email) && email.value !in s.users ==> o.response == Fail(404, MsgUserNotFound)
    ensures Truthy(email) && email.value in s.users ==>
      o.response == if mailOk then Response(200, Notice("OTP resent")) else Fail(500, MsgResendFailed)
    ensures Valid(s) ==> Valid(o.store)
  {
    var sent := if !Truthy(email) then Some(Fail(400, MsgEmailRequired)) else None;
    if email.None? then Outcome(s, Answer(sent, Fail(500, MsgResendFailed)))
    else if email.value !in s.users && sent.Some? then Outcome(s, sent.value)
    else
      var sent' := if email.value !in s.users then Some(Fail(404, MsgUserNotFound)) else sent;
      var c := NewChallenge(code, now, None, None);
      var s1 := s.(otpMap := s.otpMap[email.value := c]);
      if mailOk then
        Outcome(s1.(outbox := s1.outbox + [ResendMail(email.value, c.otp)]),
                Answer(sent', Response(200, Notice("OTP resent"))))
      else Outcome(s1, Answer(sent', Fail(500, MsgResendFailed)))
  }
}
