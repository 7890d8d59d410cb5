/** backend/controllers/userController.js: registration and login checks, the
    password-reset state machine (one-time code, then a hashed reset token,
    then the new password) and the "new value or keep the old one" profile
    merges. Hashing, random draws, password comparison and mail delivery are
    parameters. */
module UserController {
  import opened Common
  import opened Store

  /** What registration, login and the profile updates answer about a user;
      `avatar` is absent from the replies that do not send it. */
  datatype UserReply = UserReply(id: string, name: string, email: string, role: string, avatar: Option<string>)

  /** The reply of `loginUser` and `updateUserProfile`, which send the avatar. */
  function Reply(u: UserDoc): UserReply {
    UserReply(u.id, u.name, u.email, u.role, Some(u.avatar))
  }

  /** The reply of `registerUser` and `updateUser`, which do not. */
  function BriefReply(u: UserDoc): UserReply {
    UserReply(u.id, u.name, u.email, u.role, None)
  }

  /** `findOne({ email })`: the first user with that email. */
  function UserByEmail(users: seq<UserDoc>, email: string): Option<nat> {
    FirstWhere(users, (u: UserDoc) => u.email == email)
  }

  /** `findById(id)`. */
  function UserById(users: seq<UserDoc>, id: string): Option<nat> {
    FirstWhere(users, (u: UserDoc) => u.id == id)
  }

  /** `registerUser`. All three fields must be present and non-empty and the
      email unused; the new user gets the default role. */
  method RegisterUser(db: Db, name: Option<string>, email: Option<string>, password: Option<string>, newId: string)
    returns (r: Response<UserReply>)
    requires db.Valid()
    modifies db
    ensures db.Valid() && db.interviews == old(db.interviews) && db.payments == old(db.payments)
    ensures !Truthy(name) || !Truthy(email) || !Truthy(password) ==>
              r == Err(400, "All fields are required") && db.users == old(db.users)
    ensures Truthy(name) && Truthy(email) && Truthy(password) && old(UserByEmail(UserDocs(db.users), email.value)).Some? ==>
              r == Err(400, "User already exists") && db.users == old(db.users)
    ensures Truthy(name) && Truthy(email) && Truthy(password) && old(UserByEmail(UserDocs(db.users), email.value)).None? ==>
              var u := UserDoc(newId, name.value, email.value, password.value, DefaultRole, "", None, None, None, None, None);
              r == Ok(201, BriefReply(u))
              && |db.users| == |old(db.users)| + 1
              && db.users[..|old(db.users)|] == old(db.users)
              && fresh(db.users[|old(db.users)|])
              && UserDocs(db.users) == old(UserDocs(db.users)) + [u]
  {
    if !Truthy(name) || !Truthy(email) || !Truthy(password) {
      return Err(400, "All fields are required");
    }
    if UserByEmail(UserDocs(db.users), email.value).Some? {
      return Err(400, "User already exists");
    }
    var u := new User(newId, name.value, email.value, password.value);
    db.users := db.users + [u];
    r := Ok(201, BriefReply(u.Doc()));
  }

  /** After a successful registration the email belongs to exactly one user, so a
      second registration with it is refused. */
  lemma RegisteredEmailIsTaken(users: seq<UserDoc>, u: UserDoc)
    requires UserByEmail(users, u.email).None?
    ensures UserByEmail(users + [u], u.email) == Some(|users|)
  {
    var s := users + [u];
    assert s[|users|] == u;
    assert forall j :: 0 <= j < |users| ==> s[j] == users[j];
  }

  const InvalidCredentials: string := "Invalid credentials"

  /** `loginUser`. `matchPassword(candidate, stored)` is the schema's password
      comparison. An unknown email and a wrong password give the same answer. */
  function LoginUser(users: seq<UserDoc>, email: Option<string>, password: Option<string>,
                     matchPassword: (string, string) -> bool): (r: Response<UserReply>)
    ensures !Truthy(email) || !Truthy(password) ==> r == Err(400, "Email and password are required")
    ensures r.Ok? <==> Truthy(email) && Truthy(password) && UserByEmail(users, email.value).Some?
                       && matchPassword(password.value, users[UserByEmail(users, email.value).value].password)
    ensures r.Ok? ==> r.status == 200 && r.body == Reply(users[UserByEmail(users, email.value).value])
    ensures r.Err? && Truthy(email) && Truthy(password) ==> r == Err(401, InvalidCredentials)
  {
    if !Truthy(email) || !Truthy(password) then Err(400, "Email and password are required")
    else match UserByEmail(users, email.value)
      case None => Err(401, InvalidCredentials)
      case Some(k) =>
        if matchPassword(password.value, users[k].password) then Ok(200, Reply(users[k]))
        else Err(401, InvalidCredentials)
  }

  // ---- Password reset ----

  /** Both the one-time code and the reset token live ten minutes. */
  const ResetLifetimeMs: int := 600000

  const GenericOtpReply: string := "If an account with that email exists, an OTP has been sent"

  function Pow10(k: nat): nat {
    if k == 0 then 1 else 10 * Pow10(k - 1)
  }

  /** A number with `k` decimal digits is written with exactly `k` characters. */
  lemma {:induction false} DecimalLength(n: nat, k: nat)
    requires k >= 1 && Pow10(k - 1) <= n < Pow10(k)
    ensures |NatToString(n)| == k
    decreases k
  {
    if k > 1 {
      DecimalLength(n / 10, k - 1);
    }
  }

  /** `Math.floor(100000 + Math.random() * 900000).toString()`, where
      `draw` is the integer part of `Math.random() * 900000`. */
  function OneTimeCode(draw: nat): (otp: string)
    requires draw < 900000
    ensures |otp| == 6 && forall i :: 0 <= i < 6 ==> IsDigit(otp[i])
    ensures 100000 <= DigitsValue(otp) <= 999999
  {
    var otp := NatToString(100000 + draw);
    assert Pow10(5) == 100000 && Pow10(6) == 1000000;
    DecimalLength(100000 + draw, 6);
    NatToStringRoundTrip(100000 + draw);
    otp
  }

  /** The user holding a fresh one-time code. */
  function WithOtp(u: UserDoc, otp: string, now: int): UserDoc {
    u.(resetPasswordOTP := Some(otp), resetPasswordOTPExpire := Some(now + ResetLifetimeMs))
  }

  /** The query of `verifyOTP`: email and code equal, and the code not expired. */
  predicate OtpMatches(u: UserDoc, email: string, otp: string, now: int) {
    u.email == email && u.resetPasswordOTP == Some(otp)
    && u.resetPasswordOTPExpire.Some? && u.resetPasswordOTPExpire.value > now
  }

  /** The user after redeeming the code: a token hash with its expiry, and the
      code cleared. */
  function WithResetToken(u: UserDoc, tokenHash: string, now: int): UserDoc {
    u.(resetPasswordToken := Some(tokenHash), resetPasswordExpire := Some(now + ResetLifetimeMs),
       resetPasswordOTP := None, resetPasswordOTPExpire := None)
  }

  /** The query of `resetPassword`: the token hash equal and not expired. */
  predicate TokenMatches(u: UserDoc, tokenHash: string, now: int) {
    u.resetPasswordToken == Some(tokenHash) && u.resetPasswordExpire.Some? && u.resetPasswordExpire.value > now
  }

  /** The user after the reset: the new password, and the token cleared. */
  function WithPassword(u: UserDoc, password: string): UserDoc {
    u.(password := password, resetPasswordToken := None, resetPasswordExpire := None)
  }

  /** The reset flow step by step: an issued code is accepted for exactly ten
      minutes and only with its own text; redeeming it removes it, so it works
      once; the token it yields is accepted for ten minutes and only with its
      own hash; setting the password removes the token, so it works once. */
  lemma ResetFlow(u: UserDoc, otp: string, issuedAt: int, tokenHash: string, redeemedAt: int, password: string)
    ensures forall code, t :: OtpMatches(WithOtp(u, otp, issuedAt), u.email, code, t)
                              <==> code == otp && t < issuedAt + ResetLifetimeMs
    ensures forall e, code, t :: !OtpMatches(WithResetToken(u, tokenHash, redeemedAt), e, code, t)
    ensures forall h, t :: TokenMatches(WithResetToken(u, tokenHash, redeemedAt), h, t)
                           <==> h == tokenHash && t < redeemedAt + ResetLifetimeMs
    ensures forall h, t :: !TokenMatches(WithPassword(WithResetToken(u, tokenHash, redeemedAt), password), h, t)
    ensures WithPassword(WithResetToken(WithOtp(u, otp, issuedAt), tokenHash, redeemedAt), password).password == password
  {
  }

  /** `forgotPassword`. `draw` is the random part of the code and `mailSent`
      whether the mail went out. An unknown email gets the same reply as a
      known one and changes nothing; a known one gets a new code, which stays
      stored even when the mail fails with 500. */
  method ForgotPassword(db: Db, email: Option<string>, draw: nat, now: int, mailSent: bool)
    returns (r: Response<string>)
    requires db.Valid() && draw < 900000
    modifies db.users
    ensures db.users == old(db.users)
    ensures !Truthy(email) ==> r == Err(400, "Email is required") && UserDocs(db.users) == old(UserDocs(db.users))
    ensures Truthy(email) ==>
      match old(UserByEmail(UserDocs(db.users), email.value))
      case None => r == Ok(200, GenericOtpReply) && UserDocs(db.users) == old(UserDocs(db.users))
      case Some(k) =>
        UserDocs(db.users) == old(UserDocs(db.users))[k := WithOtp(old(UserDocs(db.users))[k], OneTimeCode(draw), now)]
        && r == (if mailSent then Ok(200, GenericOtpReply) else Err(500, "Failed to send OTP. Please try again later."))
  {
    if !Truthy(email) {
      return Err(400, "Email is required");
    }
    var found := UserByEmail(UserDocs(db.users), email.value);
    if found.None? {
      return Ok(200, GenericOtpReply);
    }
    var u := db.users[found.value];
    u.resetPasswordOTP := Some(OneTimeCode(draw));
    u.resetPasswordOTPExpire := Some(now + ResetLifetimeMs);
    if !mailSent {
      return Err(500, "Failed to send OTP. Please try again later.");
    }
    r := Ok(200, GenericOtpReply);
  }

  /** `verifyOTP` on string request values, the query `StrictOtpQuery` states.
      `rawToken` is the random token handed to the caller and `sha256Hex` the
      hash stored in its place. */
  method VerifyOtp(db: Db, email: Option<string>, otp: Option<string>, now: int,
                   rawToken: string, sha256Hex: string -> string)
    returns (r: Response<string>)
    requires db.Valid()
    modifies db.users
    ensures db.users == old(db.users)
    ensures !Truthy(email) || !Truthy(otp) ==>
              r == Err(400, "Email and OTP are required") && UserDocs(db.users) == old(UserDocs(db.users))
    ensures Truthy(email) && Truthy(otp) ==>
      match old(FirstWhere(UserDocs(db.users), (u: UserDoc) => OtpMatches(u, email.value, otp.value, now)))
      case None => r == Err(400, "Invalid or expired OTP") && UserDocs(db.users) == old(UserDocs(db.users))
      case Some(k) =>
        r == Ok(200, rawToken)
        && UserDocs(db.users) == old(UserDocs(db.users))[k := WithResetToken(old(UserDocs(db.users))[k], sha256Hex(rawToken), now)]
  {
    if !Truthy(email) || !Truthy(otp) {
      return Err(400, "Email and OTP are required");
    }
    var found := FirstWhere(UserDocs(db.users), (u: UserDoc) => OtpMatches(u, email.value, otp.value, now));
    if found.None? {
      return Err(400, "Invalid or expired OTP");
    }
    var u := db.users[found.value];
    u.resetPasswordToken := Some(sha256Hex(rawToken));
    u.resetPasswordExpire := Some(now + ResetLifetimeMs);
    u.resetPasswordOTP := None;
    u.resetPasswordOTPExpire := None;
    r := Ok(200, rawToken);
  }

  // ---- Request values inside the reset query ----

  /** A request-body value as the JSON body parser delivers it: a string, or an
      object `{"$ne": x}` that the store reads as a query operator. */
  datatype BodyValue = Text(text: string) | NotEqualTo(text: string)

  /** How a stored field satisfies a query value: a string must equal it, and
      `{"$ne": x}` holds for anything but `x`, a missing field included. */
  predicate QueryValueMatches(stored: Option<string>, v: BodyValue) {
    match v
    case Text(t) => stored == Some(t)
    case NotEqualTo(t) => stored != Some(t)
  }

  /** The query of `verifyOTP` as written: the body's `email` and `otp` are
      placed in it as they arrive, and the expiry must lie in the future. */
  predicate RawOtpQuery(u: UserDoc, email: BodyValue, otp: BodyValue, now: int) {
    QueryValueMatches(Some(u.email), email) && QueryValueMatches(u.resetPasswordOTP, otp)
    && u.resetPasswordOTPExpire.Some? && u.resetPasswordOTPExpire.value > now
  }

  /** As written, a caller who knows only the email and sends `{"$ne": "0"}`
      as the code matches the pending code, whatever it is, and so obtains the
      reset token. */
  lemma OperatorBodyMatchesAnyCode(u: UserDoc, draw: nat, issuedAt: int, now: int)
    requires draw < 900000 && now < issuedAt + ResetLifetimeMs
    ensures RawOtpQuery(WithOtp(u, OneTimeCode(draw), issuedAt), Text(u.email), NotEqualTo("0"), now)
  {
    assert |OneTimeCode(draw)| == 6;
  }

  /** The intended query: only string values take part, and then it is
      `OtpMatches`. */
  predicate StrictOtpQuery(u: UserDoc, email: BodyValue, otp: BodyValue, now: int) {
    email.Text? && otp.Text? && OtpMatches(u, email.text, otp.text, now)
  }

  /** Under the intended query a pending code is matched by its own email and
      text only, before it expires, and by no operator object. */
  lemma StrictQueryNeedsTheCode(u: UserDoc, code: string, issuedAt: int, email: BodyValue, otp: BodyValue, now: int)
    ensures StrictOtpQuery(WithOtp(u, code, issuedAt), email, otp, now)
            <==> email == Text(u.email) && otp == Text(code) && now < issuedAt + ResetLifetimeMs
    ensures StrictOtpQuery(WithOtp(u, code, issuedAt), email, otp, now)
            ==> RawOtpQuery(WithOtp(u, code, issuedAt), email, otp, now)
  {
  }

  /** `resetPassword`. The stored hash of the token selects the user. */
  method ResetPassword(db: Db, resetToken: Option<string>, password: Option<string>, now: int,
                       sha256Hex: string -> string)
    returns (r: Response<string>)
    requires db.Valid()
    modifies db.users
    ensures db.users == old(db.users)
    ensures !Truthy(resetToken) || !Truthy(password) ==>
              r == Err(400, "Reset token and new password are required") && UserDocs(db.users) == old(UserDocs(db.users))
    ensures Truthy(resetToken) && Truthy(password) ==>
      match old(FirstWhere(UserDocs(db.users), (u: UserDoc) => TokenMatches(u, sha256Hex(resetToken.value), now)))
      case None => r == Err(400, "Invalid or expired reset token") && UserDocs(db.users) == old(UserDocs(db.users))
      case Some(k) =>
        r == Ok(200, "Password reset successful")
        && UserDocs(db.users) == old(UserDocs(db.users))[k := WithPassword(old(UserDocs(db.users))[k], password.value)]
  {
    if !Truthy(resetToken) || !Truthy(password) {
      return Err(400, "Reset token and new password are required");
    }
    var hashed := sha256Hex(resetToken.value);
    var found := FirstWhere(UserDocs(db.users), (u: UserDoc) => TokenMatches(u, hashed, now));
    if found.None? {
      return Err(400, "Invalid or expired reset token");
    }
    var u := db.users[found.value];
    u.password := password.value;
    u.resetPasswordToken := None;
    u.resetPasswordExpire := None;
    r := Ok(200, "Password reset successful");
  }

  // ---- Profile updates ----

  /** `next || current`: a missing or empty value keeps the current one. The
      merge never blanks a field that was set, and applying it twice is the same
      as once. */
  lemma MergeKeeps(next: Option<string>, current: string)
    ensures !Truthy(next) ==> OrElse(next, current) == current
    ensures current != "" ==> OrElse(next, current) != ""
    ensures OrElse(next, OrElse(next, current)) == OrElse(next, current)
  {
  }

  /** The profile after `updateUserProfile`'s merge. */
  function MergeProfile(u: UserDoc, name: Option<string>, email: Option<string>, avatar: Option<string>,
                        password: Option<string>): (m: UserDoc)
    ensures m.id == u.id && m.role == u.role
    ensures m.resetPasswordOTP == u.resetPasswordOTP && m.resetPasswordOTPExpire == u.resetPasswordOTPExpire
    ensures m.resetPasswordToken == u.resetPasswordToken && m.resetPasswordExpire == u.resetPasswordExpire
    ensures m.subscriptionEnd == u.subscriptionEnd
    ensures m.name == (if Truthy(name) then name.value else u.name)
    ensures m.email == (if Truthy(email) then email.value else u.email)
    ensures m.avatar == (if Truthy(avatar) then avatar.value else u.avatar)
    ensures m.password == (if Truthy(password) then password.value else u.password)
  {
    u.(name := OrElse(name, u.name), email := OrElse(email, u.email), avatar := OrElse(avatar, u.avatar),
       password := if Truthy(password) then password.value else u.password)
  }

  /** An update with nothing in it leaves the profile as it was. */
  lemma EmptyProfileUpdate(u: UserDoc)
    ensures MergeProfile(u, None, None, None, None) == u
    ensures MergeProfile(u, Some(""), Some(""), Some(""), Some("")) == u
  {
  }

  /** `updateUserProfile` on the requesting user. */
  method UpdateUserProfile(db: Db, requester: string, name: Option<string>, email: Option<string>,
                           avatar: Option<string>, password: Option<string>)
    returns (r: Response<UserReply>)
    requires db.Valid()
    modifies db.users
    ensures db.users == old(db.users)
    ensures match old(UserById(UserDocs(db.users), requester))
      case None => r == Err(404, "User not found") && UserDocs(db.users) == old(UserDocs(db.users))
      case Some(k) =>
        var m := MergeProfile(old(UserDocs(db.users))[k], name, email, avatar, password);
        r == Ok(200, Reply(m)) && UserDocs(db.users) == old(UserDocs(db.users))[k := m]
  {
    var found := UserById(UserDocs(db.users), requester);
    if found.None? {
      return Err(404, "User not found");
    }
    ghost var before := UserDocs(db.users);
    var u := db.users[found.value];
    u.name := OrElse(name, u.name);
    u.email := OrElse(email, u.email);
    u.avatar := OrElse(avatar, u.avatar);
    if Truthy(password) {
      u.password := password.value;
    }
    assert u.Doc() == MergeProfile(before[found.value], name, email, avatar, password);
    assert forall j :: 0 <= j < |db.users| && j != found.value ==> db.users[j] != u;
    assert UserDocs(db.users) == before[found.value := u.Doc()];
    r := Ok(200, Reply(u.Doc()));
  }

  /** The record after `updateUser`'s merge of name, email and role. */
  function MergeAdmin(u: UserDoc, name: Option<string>, email: Option<string>, role: Option<string>): (m: UserDoc)
    ensures m.id == u.id && m.password == u.password && m.avatar == u.avatar
    ensures m.resetPasswordOTP == u.resetPasswordOTP && m.resetPasswordOTPExpire == u.resetPasswordOTPExpire
    ensures m.resetPasswordToken == u.resetPasswordToken && m.resetPasswordExpire == u.resetPasswordExpire
    ensures m.subscriptionEnd == u.subscriptionEnd
    ensures m.name == (if Truthy(name) then name.value else u.name)
    ensures m.email == (if Truthy(email) then email.value else u.email)
    ensures m.role == (if Truthy(role) then role.value else u.role)
  {
    u.(name := OrElse(name, u.name), email := OrElse(email, u.email), role := OrElse(role, u.role))
  }

  /** `updateUser` on the user with id `id`. */
  method UpdateUser(db: Db, id: string, name: Option<string>, email: Option<string>, role: Option<string>)
    returns (r: Response<UserReply>)
    requires db.Valid()
    modifies db.users
    ensures db.users == old(db.users)
    ensures match old(UserById(UserDocs(db.users), id))
      case None => r == Err(404, "User not found") && UserDocs(db.users) == old(UserDocs(db.users))
      case Some(k) =>
        var m := MergeAdmin(old(UserDocs(db.users))[k], name, email, role);
        r == Ok(200, BriefReply(m)) && UserDocs(db.users) == old(UserDocs(db.users))[k := m]
  {
    var found := UserById(UserDocs(db.users), id);
    if found.None? {
      return Err(404, "User not found");
    }
    var u := db.users[found.value];
    u.name := OrElse(name, u.name);
    u.email := OrElse(email, u.email);
    u.role := OrElse(role, u.role);
    r := Ok(200, BriefReply(u.Doc()));
  }
}
