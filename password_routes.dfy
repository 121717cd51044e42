/** The password-reset router (api/routes/password.js), which the application does not mount: a
    one-time password mailed to the account's address, exchanged for a reset token, exchanged for a
    new password. The clock, the random draws, the mail service, `validatePassword` and sha256 are
    inputs. */
module PasswordRoutes {
  import opened Common
  import opened Records
  import opened Database
  import opened JsText
  import ResetToken

  /** An OTP and a reset token are valid for ten minutes, in milliseconds. */
  const Lifetime: int := 600000

  /** `generateSixDigitOtp`: `Math.floor(100000 + Math.random() * 899999)`. */
  const OtpLow: int := 100000
  const OtpHigh: int := 999998

  /** Some user has the address `email`. */
  predicate KnownEmail(users: map<UserId, User>, email: string)
  {
    exists u :: u in users && users[u].email == email
  }

  /** The OTP record a request for `email` at time `now` saves. */
  function OtpFor(otp: int, email: string, now: int): (r: OtpRecord)
    ensures r.validTill - r.createdAt == Lifetime && r.email == email && r.otp == otp
  {
    OtpRecord(otp, email, now, now + Lifetime)
  }

  /** `POST /sendresetotp` as written (password.js:16-51). An unknown address is refused; otherwise
      the OTP record is saved, and then the mail call names the variables `from`, `subject` and
      `text`, which are not defined, so the request always ends in an internal error. */
  method SendResetOtpAsWritten(db: Db, email: string, otp: int, now: int) returns (reply: Reply)
    requires OtpLow <= otp <= OtpHigh
    modifies db
    ensures !KnownEmail(old(db.users), email) ==> reply == Failure(NotFound) && db.State() == old(db.State())
    ensures KnownEmail(old(db.users), email) ==>
              reply == Failure(InternalError)
              && db.State() == old(db.State()).(otps := old(db.otps) + [OtpFor(otp, email, now)])
  {
    if !KnownEmail(db.users, email) {
      return Failure(NotFound);
    }
    db.otps := db.otps + [OtpFor(otp, email, now)];
    // Evaluating the mail call's arguments throws a ReferenceError.
    reply := Failure(InternalError);
  }

  /** `POST /sendresetotp` with the mail call's sender, subject and text defined: the answer is a
      success unless the mail service fails. */
  method SendResetOtp(db: Db, email: string, otp: int, now: int, mailFails: bool) returns (reply: Reply)
    requires OtpLow <= otp <= OtpHigh
    modifies db
    ensures !KnownEmail(old(db.users), email) ==> reply == Failure(NotFound) && db.State() == old(db.State())
    ensures KnownEmail(old(db.users), email) ==>
              reply == (if mailFails then Failure(InternalError) else Success)
              && db.State() == old(db.State()).(otps := old(db.otps) + [OtpFor(otp, email, now)])
  {
    if !KnownEmail(db.users, email) {
      return Failure(NotFound);
    }
    db.otps := db.otps + [OtpFor(otp, email, now)];
    reply := if mailFails then Failure(InternalError) else Success;
  }

  /** An OTP record that answers the verify query `{email, otp, valid_till: {$gte: now}}`. */
  function OtpMatches(email: string, otp: int, now: int): OtpRecord -> bool
  {
    (r: OtpRecord) => r.email == email && r.otp == otp && r.validTill >= now
  }

  /** Some stored OTP answers the verify query. */
  predicate OtpValid(otps: seq<OtpRecord>, email: string, otp: int, now: int)
  {
    exists i :: 0 <= i < |otps| && otps[i].email == email && otps[i].otp == otp && otps[i].validTill >= now
  }

  /** The verify query finds exactly what `OtpValid` says is there. */
  lemma OtpLookup(otps: seq<OtpRecord>, email: string, otp: int, now: int)
    ensures FindFirst(otps, OtpMatches(email, otp, now)).Some? <==> OtpValid(otps, email, otp, now)
  {
    var found := FindFirst(otps, OtpMatches(email, otp, now));
    if found.Some? {
      assert OtpMatches(email, otp, now)(otps[found.value]);
    }
  }

  /** `POST /verifyresetotp` (password.js:76-120) after the rate limiter. `otp` is the request's
      number (`None` when absent) and `d1`, `d2`, `d3` the draws of the three generated parts of
      the token. A missing OTP or address is refused before any lookup; a stored OTP for the address
      that has not expired yields a fresh token valid for ten minutes. The OTP is not consumed. */
  method VerifyResetOtp(db: Db, email: string, otp: Option<int>, now: int, d1: seq<nat>, d2: seq<nat>, d3: seq<nat>)
    returns (reply: Reply, token: string)
    requires |d1| == 64 && |d2| == 64 && |d3| == 64
    requires forall i :: 0 <= i < 64 ==>
               d1[i] <= ResetToken.MaxDraw && d2[i] <= ResetToken.MaxDraw && d3[i] <= ResetToken.MaxDraw
    modifies db
    ensures otp.None? || otp == Some(0) || email == "" ==>
              reply == Failure(BadRequest) && db.State() == old(db.State())
    ensures otp.Some? && otp.value != 0 && email != "" ==>
              if OtpValid(old(db.otps), email, otp.value, now)
              then reply == Success && |token| == 3 * 64 + 5 && token[..3] == "tk_"
                   && db.State() == old(db.State()).(tokens := old(db.tokens) + [TokenRecord(token, email, now, now + Lifetime)])
              else reply == Failure(NotFound) && db.State() == old(db.State())
  {
    token := "";
    if otp.None? || otp.value == 0 {
      return Failure(BadRequest), token;
    }
    if email == "" {
      return Failure(BadRequest), token;
    }
    // The check `!Number.isInteger(parseInt(otp)) && otp < 100000` never refuses an integer.
    var found := FindFirst(db.otps, OtpMatches(email, otp.value, now));
    OtpLookup(db.otps, email, otp.value, now);
    if found.None? {
      return Failure(NotFound), token;
    }
    token := ResetToken.GetToken(64, d1, d2, d3);
    db.tokens := db.tokens + [TokenRecord(token, email, now, now + Lifetime)];
    reply := Success;
  }

  /** A stored reset token answers the reset query `{token, email, valid_till: {$gte: now}}`. */
  predicate TokenValid(tokens: seq<TokenRecord>, token: string, email: string, now: int)
  {
    exists i :: 0 <= i < |tokens| && tokens[i].token == token && tokens[i].email == email && tokens[i].validTill >= now
  }

  function TokenMatches(token: string, email: string, now: int): TokenRecord -> bool
  {
    (r: TokenRecord) => r.token == token && r.email == email && r.validTill >= now
  }

  lemma TokenLookup(tokens: seq<TokenRecord>, token: string, email: string, now: int)
    ensures FindFirst(tokens, TokenMatches(token, email, now)).Some? <==> TokenValid(tokens, token, email, now)
  {
    var found := FindFirst(tokens, TokenMatches(token, email, now));
    if found.Some? {
      assert TokenMatches(token, email, now)(tokens[found.value]);
    }
  }

  /** The users after `findOneAndUpdate({email}, {password})`: the account with that address gets
      the new password; every other account is left alone. */
  function WithPassword(users: map<UserId, User>, email: string, password: string): (r: map<UserId, User>)
    ensures r.Keys == users.Keys
    ensures forall u :: u in users && users[u].email == email ==> r[u] == users[u].(password := password)
    ensures forall u :: u in users && users[u].email != email ==> r[u] == users[u]
  {
    map u | u in users :: if users[u].email == email then users[u].(password := password) else users[u]
  }

  /** Changing passwords keeps the store consistent. */
  lemma WithPasswordConsistent(t: Tables, email: string, password: string)
    requires Consistent(t)
    ensures Consistent(t.(users := WithPassword(t.users, email, password)))
  {
  }

  /** `POST /reset` (password.js:127-187). `strong` is what `validatePassword(password)` answers and
      `sha256` the digest function. A missing token or address or a weak password is forbidden
      before any lookup; so is a token that does not match the address or has expired (the warning
      mail's failure is swallowed). Otherwise the account with that address gets the digest of the
      trimmed password and the answer is a success whatever the confirmation mail does. The token is
      not consumed. */
  method Reset(db: Db, token: string, password: string, email: string, strong: bool,
               sha256: string -> string, now: int) returns (reply: Reply)
    requires db.Valid()
    modifies db
    ensures db.Valid()
    ensures token == "" || email == "" || !strong ==> reply == Failure(Forbidden) && db.State() == old(db.State())
    ensures token != "" && email != "" && strong ==>
              if TokenValid(old(db.tokens), token, email, now)
              then reply == Success
                   && db.State() == old(db.State()).(users := WithPassword(old(db.users), email, sha256(Trim(password))))
              else reply == Failure(Forbidden) && db.State() == old(db.State())
  {
    if token == "" || email == "" || !strong {
      return Failure(Forbidden);
    }
    var found := FindFirst(db.tokens, TokenMatches(token, email, now));
    TokenLookup(db.tokens, token, email, now);
    if found.None? {
      return Failure(Forbidden);
    }
    WithPasswordConsistent(db.State(), email, sha256(Trim(password)));
    db.users := WithPassword(db.users, email, sha256(Trim(password)));
    reply := Success;
  }

  /** A token saved by a verification at `issued` opens a reset for that address until ten minutes
      later, and no longer: the reset window is exactly the token's lifetime. */
  lemma TokenWindow(tokens: seq<TokenRecord>, token: string, email: string, issued: int, now: int)
    requires forall i :: 0 <= i < |tokens| ==> tokens[i].token != token
    ensures TokenValid(tokens + [TokenRecord(token, email, issued, issued + Lifetime)], token, email, now)
            <==> now <= issued + Lifetime
  {
    var ts := tokens + [TokenRecord(token, email, issued, issued + Lifetime)];
    if now <= issued + Lifetime {
      assert ts[|tokens|].token == token;
    }
  }
}
