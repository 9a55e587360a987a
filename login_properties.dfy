/**
 * What `emailLogin` guarantees, stated over its specification `EmailAuth.Login`
 * (which `EmailAuth.EmailLogin` is proved to follow).
 */
module LoginProperties {

  import opened Wrappers
  import opened Http
  import opened Decimal
  import opened ErrorHandling
  import opened RateLimiting
  import opened EmailAuth

  /**
   * A wrong password costs exactly one point under `ipAddr` on the IP limiter and one
   * under `emailIPkey` on the (email, IP) limiter, whenever the store answers or fails
   * after applying the increment; no other key moves, and no key gains more than one point.
   */
  lemma WrongPasswordConsumesOncePerLimiter(ipPoints: nat, emailIpPoints: nat, s: LimiterState, a: Attempt, user: UserRecord, before: Reply)
    requires !a.passwordMatches
    ensures var out := Login(ipPoints, emailIpPoints, s, a, user, before).limiters;
      && Count(out.ip, a.ipAddr) == Count(s.ip, a.ipAddr) + (if a.ipStore.Reachable? || a.ipStore.applied then 1 else 0)
      && Count(out.emailIp, a.emailIPkey) == Count(s.emailIp, a.emailIPkey) + (if a.emailIpStore.Reachable? || a.emailIpStore.applied then 1 else 0)
      && (forall k :: k != a.ipAddr ==> Count(out.ip, k) == Count(s.ip, k))
      && (forall k :: k != a.emailIPkey ==> Count(out.emailIp, k) == Count(s.emailIp, k))
  {
  }

  /**
   * A wrong password that both limiters accept is answered as the trusted error
   * "Invalid Credentials" with status 400; the user gets no token.
   */
  lemma WrongPasswordWithinBudgetIsInvalidCredentials(ipPoints: nat, emailIpPoints: nat, s: LimiterState, a: Attempt, user: UserRecord, before: Reply)
    requires !a.passwordMatches
    requires a.ipStore.Reachable? && Count(s.ip, a.ipAddr) < ipPoints
    requires a.emailIpStore.Reachable? && Count(s.emailIp, a.emailIPkey) < emailIpPoints
    ensures var out := Login(ipPoints, emailIpPoints, s, a, user, before);
      && out.reply == before.(status := 400, body := Json(map["message" := "Invalid Credentials"]), sent := true)
      && out.user == user
  {
    DefaultAppErrorIsAnswered(AppErrorArgs(None, BadRequest, "Invalid Credentials", None), before);
  }

  /**
   * A wrong password rejected by a limiter's budget is answered 429 "Too Many Requests",
   * with a `Retry-After` header whose numeral reads as the rounded wait, at least one second.
   */
  lemma RateLimitedIsTooManyRequests(ipPoints: nat, emailIpPoints: nat, s: LimiterState, a: Attempt, user: UserRecord, before: Reply, limited: RateLimiterRes)
    requires !a.passwordMatches
    requires WrongPasswordRejection(ipPoints, emailIpPoints, s, a) == Some(LimitReached(limited))
    ensures var out := Login(ipPoints, emailIpPoints, s, a, user, before);
      && out.reply.status == 429
      && out.reply.body == Text("Too Many Requests") && out.reply.sent
      && "Retry-After" in out.reply.headers
      && IsNumeral(out.reply.headers["Retry-After"])
      && DecimalValue(out.reply.headers["Retry-After"]) == RetryAfterSeconds(limited.msBeforeNext) >= 1
      && out.user == user
  {
    DecimalRoundTrip(RetryAfterSeconds(limited.msBeforeNext));
  }

  /**
   * A wrong password whose consume fails in the store goes to `handleError` as a plain
   * `Error`: status 500, nothing sent, never 200 or 429, no token.
   */
  lemma StoreFailureIsInternalError(ipPoints: nat, emailIpPoints: nat, s: LimiterState, a: Attempt, user: UserRecord, before: Reply, reason: string)
    requires !a.passwordMatches
    requires WrongPasswordRejection(ipPoints, emailIpPoints, s, a) == Some(StoreFailure(reason))
    ensures var out := Login(ipPoints, emailIpPoints, s, a, user, before);
      && out.reply == before.(status := 500)
      && out.reply.status != 200 && out.reply.status != 429
      && out.user == user
  {
  }

  /**
   * An unreachable store does not fail closed: a wrong password then gets 500 unless the
   * other limiter's budget rejection settles first (429); when the other limiter accepts,
   * or both stores fail, it is always 500.
   */
  lemma UnreachableStoreIsNotFailClosed(ipPoints: nat, emailIpPoints: nat, s: LimiterState, a: Attempt, user: UserRecord, before: Reply)
    requires !a.passwordMatches
    requires a.ipStore.Unreachable? || a.emailIpStore.Unreachable?
    ensures var out := Login(ipPoints, emailIpPoints, s, a, user, before);
      && (out.reply.status == 500 || out.reply.status == 429)
      && (a.ipStore.Unreachable? && a.emailIpStore.Unreachable? ==> out.reply.status == 500)
      && (a.ipStore.Unreachable? && a.emailIpStore.Reachable? && Count(s.emailIp, a.emailIPkey) < emailIpPoints ==> out.reply.status == 500)
      && (a.emailIpStore.Unreachable? && a.ipStore.Reachable? && Count(s.ip, a.ipAddr) < ipPoints ==> out.reply.status == 500)
  {
    var rejection := WrongPasswordRejection(ipPoints, emailIpPoints, s, a);
    assert rejection.Some?;
    match rejection.value {
      case StoreFailure(reason) =>
        StoreFailureIsInternalError(ipPoints, emailIpPoints, s, a, user, before, reason);
      case LimitReached(limited) =>
        RateLimitedIsTooManyRequests(ipPoints, emailIpPoints, s, a, user, before, limited);
    }
  }

  /**
   * A correct password never touches the IP limiter; it removes the (email, IP) key
   * exactly when the prior result had consumed points, and leaves every other key alone.
   */
  lemma SuccessResetsOnlyPenalisedKey(ipPoints: nat, emailIpPoints: nat, s: LimiterState, a: Attempt, user: UserRecord, before: Reply)
    requires a.passwordMatches
    ensures var out := Login(ipPoints, emailIpPoints, s, a, user, before).limiters;
      && out.ip == s.ip
      && (forall k :: k != a.emailIPkey ==> Count(out.emailIp, k) == Count(s.emailIp, k))
      && (a.prior.Some? && a.prior.value.consumedPoints > 0 ==> a.emailIPkey !in out.emailIp)
      && (a.prior.None? || a.prior.value.consumedPoints == 0 ==> out.emailIp == s.emailIp)
  {
  }

  /**
   * A correct password is answered 200 with the user, who now carries the token and no
   * password property; every other field is sent as it was, and the caller's object is updated the same way.
   */
  lemma SuccessIssuesTokenWithoutPassword(ipPoints: nat, emailIpPoints: nat, s: LimiterState, a: Attempt, user: UserRecord, before: Reply)
    requires a.passwordMatches
    ensures var out := Login(ipPoints, emailIpPoints, s, a, user, before);
      && out.reply.status == 200 && out.reply.sent && out.reply.body.Json?
      && "token" in out.reply.body.fields && out.reply.body.fields["token"] == a.token
      && "password" !in out.reply.body.fields
      && UserFromJson(out.reply.body.fields) == out.user.(others := user.others - UserKeys)
      && out.user == user.(token := Some(a.token), password := None)
  {
    UserJsonRoundTrip(SignedIn(user, a.token));
  }


  /**
   * Status 200 is given exactly for a correct password, and only then does the user
   * change (gain a token); every wrong password gets 400, 429 or 500.
   */
  lemma OnlyCorrectPasswordSucceeds(ipPoints: nat, emailIpPoints: nat, s: LimiterState, a: Attempt, user: UserRecord, before: Reply)
    ensures var out := Login(ipPoints, emailIpPoints, s, a, user, before);
      && (out.reply.status == 200 <==> a.passwordMatches)
      && (!a.passwordMatches ==> out.user == user && out.reply.status in {400, 429, 500})
  {
    if !a.passwordMatches {
      match WrongPasswordRejection(ipPoints, emailIpPoints, s, a) {
        case None =>
          DefaultAppErrorIsAnswered(AppErrorArgs(None, BadRequest, "Invalid Credentials", None), before);
        case Some(StoreFailure(reason)) =>
          StoreFailureIsInternalError(ipPoints, emailIpPoints, s, a, user, before, reason);
        case Some(LimitReached(limited)) =>
          RateLimitedIsTooManyRequests(ipPoints, emailIpPoints, s, a, user, before, limited);
      }
    }
  }

  /**
   * With the (email, IP) limiter blocking after one failure, a first wrong password from
   * fresh counters is answered 400 and a second one 429.
   */
  lemma WrongPasswordTwiceIsThrottled(ipPoints: nat, s: LimiterState, a: Attempt, user: UserRecord, before: Reply, before2: Reply)
    requires ipPoints >= 2
    requires a.ipAddr !in s.ip && a.emailIPkey !in s.emailIp
    requires !a.passwordMatches && a.ipStore.Reachable? && a.emailIpStore.Reachable?
    ensures var first := Login(ipPoints, 1, s, a, user, before);
      var second := Login(ipPoints, 1, first.limiters, a, user, before2);
      first.reply.status == 400 && second.reply.status == 429
  {
    var first := Login(ipPoints, 1, s, a, user, before);
    WrongPasswordWithinBudgetIsInvalidCredentials(ipPoints, 1, s, a, user, before);
    assert Count(first.limiters.emailIp, a.emailIPkey) == 1;
    assert Count(first.limiters.ip, a.ipAddr) == 1;
    var rejection := WrongPasswordRejection(ipPoints, 1, first.limiters, a);
    assert rejection.Some? && rejection.value.LimitReached?;
    RateLimitedIsTooManyRequests(ipPoints, 1, first.limiters, a, user, before2, rejection.value.res);
  }

  /**
   * After a correct password forgives a penalised (email, IP) key, the next wrong
   * password counts from one again, not from where the failures had reached.
   */
  lemma FailureAfterResetCountsFromOne(ipPoints: nat, emailIpPoints: nat, s: LimiterState, ok: Attempt, bad: Attempt, user: UserRecord, before: Reply, before2: Reply)
    requires ok.passwordMatches && ok.prior.Some? && ok.prior.value.consumedPoints > 0
    requires !bad.passwordMatches && bad.emailIpStore.Reachable? && bad.emailIPkey == ok.emailIPkey
    ensures var afterSuccess := Login(ipPoints, emailIpPoints, s, ok, user, before);
      var afterFailure := Login(ipPoints, emailIpPoints, afterSuccess.limiters, bad, afterSuccess.user, before2);
      Count(afterFailure.limiters.emailIp, ok.emailIPkey) == 1
  {
    var afterSuccess := Login(ipPoints, emailIpPoints, s, ok, user, before);
    SuccessResetsOnlyPenalisedKey(ipPoints, emailIpPoints, s, ok, user, before);
    WrongPasswordConsumesOncePerLimiter(ipPoints, emailIpPoints, afterSuccess.limiters, bad, afterSuccess.user, before2);
  }
}
