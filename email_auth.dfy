/**
 * Email registration and login (src/components/users/services/emailAuth.ts).
 * Login is the brute-force guard: a wrong password costs one point on the
 * per-IP limiter and one on the per-(email, IP) limiter, and is answered 400,
 * 429 with `Retry-After`, or 500 depending on how those consumes settle; a
 * correct password forgives the (email, IP) penalty and answers 200 with a token.
 * Password hashing and comparison, token generation and the database are inputs.
 */
module EmailAuth {

  import opened Wrappers
  import opened Http
  import opened Decimal
  import opened ErrorHandling
  import opened RateLimiting

  /**
   * A user document: the properties of the interface `IUser` (`None` is an absent or
   * deleted optional property) and, in `others`, the rest of the stored document
   * (`email`, `__v`, `createdAt`, `updatedAt`, ...), each as its serialised text.
   */
  datatype UserRecord = UserRecord(
    id: string,
    firstName: string,
    lastName: string,
    password: Option<string>,
    phoneNumber: Option<string>,
    profilePicture: Option<string>,
    token: Option<string>,
    others: map<string, string>)

  /** The property names of `IUser`. */
  const UserKeys: set<string> := {"_id", "firstName", "lastName", "password", "phoneNumber", "profilePicture", "token"}

  function WithOptional(fields: map<string, string>, name: string, value: Option<string>): (r: map<string, string>)
  {
    match value
    case Some(v) => fields[name := v]
    case None => fields
  }

  function Lookup(fields: map<string, string>, name: string): (r: Option<string>)
  {
    if name in fields then Some(fields[name]) else None
  }

  function Required(fields: map<string, string>, name: string): (r: string)
  {
    if name in fields then fields[name] else ""
  }

  /**
   * A user as `res.json` serialises it: one property per present `IUser` field and every
   * other property of the document, and nothing else.
   */
  function UserJson(u: UserRecord): (fields: map<string, string>)
    ensures "_id" in fields && "firstName" in fields && "lastName" in fields
    ensures "password" in fields <==> u.password.Some?
    ensures "token" in fields <==> u.token.Some?
    ensures u.token.Some? ==> fields["token"] == u.token.value
    ensures forall k :: k in u.others && k !in UserKeys ==> k in fields && fields[k] == u.others[k]
    ensures forall k :: k in fields ==> k in UserKeys || k in u.others
  {
    var required := (u.others - UserKeys)["_id" := u.id]["firstName" := u.firstName]["lastName" := u.lastName];
    var fields := WithOptional(required, "password", u.password);
    var fields := WithOptional(fields, "phoneNumber", u.phoneNumber);
    var fields := WithOptional(fields, "profilePicture", u.profilePicture);
    WithOptional(fields, "token", u.token)
  }

  /** Reading a serialised user back; a missing required property reads as "". */
  function UserFromJson(fields: map<string, string>): (u: UserRecord)
  {
    UserRecord(
      Required(fields, "_id"),
      Required(fields, "firstName"),
      Required(fields, "lastName"),
      Lookup(fields, "password"),
      Lookup(fields, "phoneNumber"),
      Lookup(fields, "profilePicture"),
      Lookup(fields, "token"),
      fields - UserKeys)
  }

  /**
   * Serialisation loses nothing: every field of the user, and every other property of the
   * document, is read back from the JSON body. (Other properties named like an `IUser`
   * property, which a document cannot have besides that property, are not sent.)
   */
  lemma UserJsonRoundTrip(u: UserRecord)
    ensures UserFromJson(UserJson(u)) == u.(others := u.others - UserKeys)
    ensures u.others.Keys !! UserKeys ==> UserFromJson(UserJson(u)) == u
  {
    var fields := UserJson(u);
    assert fields - UserKeys == u.others - UserKeys;
    if u.others.Keys !! UserKeys {
      assert u.others - UserKeys == u.others;
    }
  }

  /** A user document held by reference; `emailLogin` updates the caller's object in place. */
  class User {
    var id: string
    var firstName: string
    var lastName: string
    var password: Option<string>
    var phoneNumber: Option<string>
    var profilePicture: Option<string>
    var token: Option<string>
    var others: map<string, string>

    constructor (record: UserRecord)
      ensures View() == record
    {
      id, firstName, lastName := record.id, record.firstName, record.lastName;
      password, phoneNumber, profilePicture, token := record.password, record.phoneNumber, record.profilePicture, record.token;
      others := record.others;
    }

    function View(): (r: UserRecord)
      reads this
    {
      UserRecord(id, firstName, lastName, password, phoneNumber, profilePicture, token, others)
    }
  }

  /** The interface `IUserRegister`. */
  datatype RegisterRecord = RegisterRecord(firstName: string, lastName: string, password: string, confirmPassword: Option<string>)

  /** The registration payload, which `emailRegister` updates in place before saving it. */
  class RegisterForm {
    var firstName: string
    var lastName: string
    var password: string
    var confirmPassword: Option<string>

    constructor (record: RegisterRecord)
      ensures View() == record
    {
      firstName, lastName, password, confirmPassword := record.firstName, record.lastName, record.password, record.confirmPassword;
    }

    function View(): (r: RegisterRecord)
      reads this
    {
      RegisterRecord(firstName, lastName, password, confirmPassword)
    }
  }

  // ---------------------------------------------------------------------------
  // Registration

  const UnableToSave := "Unable to save new user instance"

  /** The user sent back after registration or login: with the token, without the password hash. */
  function SignedIn(u: UserRecord, token: string): (r: UserRecord)
    ensures r.token == Some(token) && r.password == None
    ensures r.id == u.id && r.firstName == u.firstName && r.lastName == u.lastName
    ensures r.phoneNumber == u.phoneNumber && r.profilePicture == u.profilePicture && r.others == u.others
  {
    u.(token := Some(token), password := None)
  }

  /** The response `emailRegister` gives, from what `User.create` returned. */
  function RegisterReply(created: Option<UserRecord>, token: string, before: Reply): (after: Reply)
  {
    match created
    case Some(doc) => before.(status := 201, body := Json(UserJson(SignedIn(doc, token))), sent := true)
    case None => Respond(Dispatch(PlainError(UnableToSave), true), before)
  }

  /**
   * `emailRegister`: stores the hash in place of the password, drops the
   * confirmation, and answers with the created user (`created`, the result of
   * `User.create`); `hashedPassword` is the bcrypt hash, `token` the generated token.
   */
  method EmailRegister(userData: RegisterForm, res: Response, hashedPassword: string,
                       created: Option<UserRecord>, token: string)
    modifies userData, res
    ensures userData.View() == old(userData.View()).(password := hashedPassword, confirmPassword := None)
    ensures res.View() == RegisterReply(created, token, old(res.View()))
  {
    userData.password := hashedPassword;
    userData.confirmPassword := None;
    if created.Some? {
      var createdUserData := created.value;
      createdUserData := SignedIn(createdUserData, token);
      res.Status(201);
      res.SendJson(UserJson(createdUserData));
    } else {
      var error := PlainError(UnableToSave);
      var _ := HandleError(error, res);
    }
  }

  /**
   * A saved user is answered 201 with a token and without a password, every other
   * field as saved; an unsaved one gets status 500 and nothing is sent.
   */
  lemma RegisterReplyShape(created: Option<UserRecord>, token: string, before: Reply)
    ensures var after := RegisterReply(created, token, before);
      && (created.Some? ==>
            && after.status == 201 && after.sent && after.body.Json?
            && "token" in after.body.fields && after.body.fields["token"] == token
            && "password" !in after.body.fields
            && UserFromJson(after.body.fields) == created.value.(token := Some(token), password := None, others := created.value.others - UserKeys))
      && (created.None? ==> after.status == 500 && after.sent == before.sent && after.body == before.body)
  {
    if created.Some? {
      UserJsonRoundTrip(SignedIn(created.value, token));
    }
  }

  // ---------------------------------------------------------------------------
  // Login

  /** The counters of the two limiters: `limiterSlowBruteByIP` and `limiterConsecutiveFailsByEmailAndIP`. */
  datatype LimiterState = LimiterState(ip: map<string, nat>, emailIp: map<string, nat>)

  /** What one login attempt depends on that lies outside the model. */
  datatype Attempt = Attempt(
    passwordMatches: bool,          // the outcome of `bcrypt.compare`
    prior: Option<RateLimiterRes>,  // `resEmailAndIP`, the (email, IP) limiter's state before the attempt
    ipAddr: string,
    emailIPkey: string,
    ipStore: StoreCondition,        // the store during the IP limiter's consume
    emailIpStore: StoreCondition,   // the store during the (email, IP) limiter's consume
    ipSettlesFirst: bool,           // when both consumes reject, whether the IP limiter's rejection settles first
    token: string)                  // `generateToken(basicUserDoc._id)`

  datatype LoginOutcome = LoginOutcome(limiters: LimiterState, reply: Reply, user: UserRecord)

  const InvalidCredentials := NewAppError(AppErrorArgs(None, BadRequest, "Invalid Credentials", None))
  const TooManyRequests := "Too Many Requests"
  const RetryAfter := "Retry-After"

  /**
   * How `Promise.all` over the two consumes settles: it resolves when both resolve,
   * and otherwise rejects with the first rejection to settle.
   */
  function FirstRejection(ip: ConsumeOutcome, emailIp: ConsumeOutcome, ipSettlesFirst: bool): (r: Option<Rejection>)
    ensures r.None? <==> ip.Resolved? && emailIp.Resolved?
    ensures r.Some? ==> (ip.Rejected? && r.value == ip.rejection) || (emailIp.Rejected? && r.value == emailIp.rejection)
    ensures ip.Rejected? && emailIp.Rejected? ==> r == Some(if ipSettlesFirst then ip.rejection else emailIp.rejection)
  {
    match (ip, emailIp)
    case (Resolved(_), Resolved(_)) => None
    case (Rejected(rejection), Resolved(_)) => Some(rejection)
    case (Resolved(_), Rejected(rejection)) => Some(rejection)
    case (Rejected(first), Rejected(second)) => Some(if ipSettlesFirst then first else second)
  }

  /** The `Retry-After` value: the wait rounded to whole seconds (halves up, as JavaScript rounds), or 1 where that gives 0. */
  function RetryAfterSeconds(msBeforeNext: nat): (s: nat)
    ensures s >= 1
    ensures msBeforeNext >= 500 ==> 1000 * s - 500 <= msBeforeNext < 1000 * s + 500
    ensures msBeforeNext < 500 ==> s == 1
  {
    var rounded := (msBeforeNext + 500) / 1000;
    if rounded == 0 then 1 else rounded
  }

  /** The rejection a wrong password meets, if any: both limiters consume, then `Promise.all` settles. */
  function WrongPasswordRejection(ipPoints: nat, emailIpPoints: nat, s: LimiterState, a: Attempt): (r: Option<Rejection>)
  {
    FirstRejection(
      ConsumeStep(s.ip, ipPoints, a.ipAddr, a.ipStore).1,
      ConsumeStep(s.emailIp, emailIpPoints, a.emailIPkey, a.emailIpStore).1,
      a.ipSettlesFirst)
  }

  /** The `catch` block: a rate-limit result is answered 429 with `Retry-After`, an `Error` goes to `handleError`. */
  function RejectedReply(rejection: Rejection, before: Reply): (after: Reply)
    ensures rejection.LimitReached? ==> after.status == 429 && RetryAfter in after.headers && after.sent
    ensures rejection.StoreFailure? ==> after.status == 500 && after.sent == before.sent && after.headers == before.headers
  {
    match rejection
    case StoreFailure(reason) => Respond(Dispatch(PlainError(reason), true), before)
    case LimitReached(res) =>
      before.(headers := before.headers[RetryAfter := DecimalString(RetryAfterSeconds(res.msBeforeNext))],
              status := 429, body := Text(TooManyRequests), sent := true)
  }

  /** What `emailLogin` does to the limiters' counters, the response and the user object. */
  function Login(ipPoints: nat, emailIpPoints: nat, s: LimiterState, a: Attempt, user: UserRecord, before: Reply): (out: LoginOutcome)
  {
    if !a.passwordMatches then
      var limiters := LimiterState(
        ConsumeStep(s.ip, ipPoints, a.ipAddr, a.ipStore).0,
        ConsumeStep(s.emailIp, emailIpPoints, a.emailIPkey, a.emailIpStore).0);
      var reply := match WrongPasswordRejection(ipPoints, emailIpPoints, s, a)
        case None => Respond(Dispatch(InvalidCredentials, true), before)
        case Some(rejection) => RejectedReply(rejection, before);
      LoginOutcome(limiters, reply, user)
    else
      var emailIp := if a.prior.Some? && a.prior.value.consumedPoints > 0 then s.emailIp - {a.emailIPkey} else s.emailIp;
      var signedIn := SignedIn(user, a.token);
      LoginOutcome(LimiterState(s.ip, emailIp), before.(status := 200, body := Json(UserJson(signedIn)), sent := true), signedIn)
  }

  /**
   * `emailLogin`. The password comparison's outcome, the store's behaviour on each
   * consume, the order in which two rejections settle, and the generated token are inputs.
   */
  method EmailLogin(basicUserDoc: User, res: Response, passwordMatches: bool,
                    limiterConsecutiveFailsByEmailAndIP: RateLimiter, limiterSlowBruteByIP: RateLimiter,
                    resEmailAndIP: Option<RateLimiterRes>, ipAddr: string, emailIPkey: string,
                    ipStore: StoreCondition, emailIpStore: StoreCondition, ipSettlesFirst: bool, token: string)
    requires limiterConsecutiveFailsByEmailAndIP != limiterSlowBruteByIP
    modifies basicUserDoc, res, limiterConsecutiveFailsByEmailAndIP, limiterSlowBruteByIP
    ensures var out := Login(limiterSlowBruteByIP.points, limiterConsecutiveFailsByEmailAndIP.points,
                             old(LimiterState(limiterSlowBruteByIP.counters, limiterConsecutiveFailsByEmailAndIP.counters)),
                             Attempt(passwordMatches, resEmailAndIP, ipAddr, emailIPkey, ipStore, emailIpStore, ipSettlesFirst, token),
                             old(basicUserDoc.View()), old(res.View()));
      && limiterSlowBruteByIP.counters == out.limiters.ip
      && limiterConsecutiveFailsByEmailAndIP.counters == out.limiters.emailIp
      && res.View() == out.reply
      && basicUserDoc.View() == out.user
  {
    if !passwordMatches {
      var ipOutcome := limiterSlowBruteByIP.Consume(ipAddr, ipStore);
      var emailIpOutcome := limiterConsecutiveFailsByEmailAndIP.Consume(emailIPkey, emailIpStore);
      var rejection := FirstRejection(ipOutcome, emailIpOutcome, ipSettlesFirst);
      match rejection {
        case None =>
          var _ := HandleError(InvalidCredentials, res);
        case Some(StoreFailure(reason)) =>
          var _ := HandleError(PlainError(reason), res);
        case Some(LimitReached(limited)) =>
          res.Set(RetryAfter, DecimalString(RetryAfterSeconds(limited.msBeforeNext)));
          res.Status(429);
          res.SendText(TooManyRequests);
      }
      return;
    }
    if resEmailAndIP.Some? && resEmailAndIP.value.consumedPoints > 0 {
      limiterConsecutiveFailsByEmailAndIP.Delete(emailIPkey);
    }
    var user := basicUserDoc;
    user.token := Some(token);
    user.password := None;
    res.Status(200);
    res.SendJson(UserJson(user.View()));
  }
}
