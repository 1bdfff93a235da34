/** Accounts: the e-mail OTP that gates registration, registration itself
    and login. Randomness, the clock, bcrypt, key generation, private-key
    encryption and token signing are supplied by the caller. */
module Accounts {
  import opened Wrappers
  import opened Http
  import opened Store
  import opened Text
  import opened Hashing

  /** Lifetime of a requested OTP: ten minutes, in seconds. */
  const OtpLifetime := 600

  const NeedEmail := "Valid email is required"
  const StoreOtpFailed := "Failed to store OTP"
  const SendOtpFailedPrefix := "Failed to send OTP email: "
  const OtpSent := "OTP sent to your email address"

  /** The OTP record of `email`: the first one the store holds for it. */
  function OtpOf(otps: seq<EmailOtp>, email: string): Option<nat> {
    FirstWhere(otps, (o: EmailOtp) => o.email == email)
  }

  /** Upsert by e-mail: the record of `rec.email` is overwritten, or `rec`
      is appended when there is none. */
  function Upsert(otps: seq<EmailOtp>, rec: EmailOtp): (r: seq<EmailOtp>)
    ensures OtpOf(r, rec.email).Some? && r[OtpOf(r, rec.email).value] == rec
    ensures OtpOf(otps, rec.email).Some? ==> |r| == |otps|
    ensures OtpOf(otps, rec.email).None? ==> r == otps + [rec]
    ensures forall j :: 0 <= j < |otps| && Some(j) != OtpOf(otps, rec.email) ==> r[j] == otps[j]
  {
    match OtpOf(otps, rec.email)
    case Some(i) =>
      FirstWhereUpdate(otps, i, rec, (o: EmailOtp) => o.email == rec.email);
      otps[i := rec]
    case None =>
      FirstWhereAppend(otps, rec, (o: EmailOtp) => o.email == rec.email);
      otps + [rec]
  }

  /** `POST /api/auth/request-otp`. `draw` is the random number below one
      million the code is printed from; `stored` says whether the upsert
      succeeded and `mailError` carries the mailer's error text, if any. */
  function RequestOtp(db: Db, body: Body<string>, draw: nat, now: int, stored: bool,
                      mailError: Option<string>): (r: Handled)
    requires draw < 1000000
    ensures body.Malformed? ==> r == Handled(Failure(400, NeedEmail), db)
    ensures body.Parsed? && !stored ==> r == Handled(Failure(500, StoreOtpFailed), db)
    ensures body.Parsed? && stored ==>
      var i := OtpOf(r.db.otps, body.value);
      && r.db == db.(otps := r.db.otps)
      && i.Some?
      && var o := r.db.otps[i.value];
      && |o.otp| == 6 && AllDigits(o.otp) && DigitsValue(o.otp) == draw
      && o.expiresAt == now + OtpLifetime && !o.verified
    ensures body.Parsed? && stored ==>
      r.db == db.(otps := Upsert(db.otps, EmailOtp(body.value, ZeroPad6(draw), now + OtpLifetime, false)))
    ensures body.Parsed? && stored ==>
      r.reply == (if mailError.Some? then Failure(500, SendOtpFailedPrefix + mailError.value)
                  else Success(MessageBody(OtpSent)))
  {
    match body
    case Malformed => Handled(Failure(400, NeedEmail), db)
    case Parsed(email) =>
      if !stored then Handled(Failure(500, StoreOtpFailed), db)
      else
        var after := db.(otps := Upsert(db.otps, EmailOtp(email, ZeroPad6(draw), now + OtpLifetime, false)));
        match mailError
        case Some(e) => Handled(Failure(500, SendOtpFailedPrefix + e), after)
        case None => Handled(Success(MessageBody(OtpSent)), after)
  }

  /** The e-mail's OTP record holds `code`, is not expired at `now` and has
      not been used. */
  predicate Redeemable(otps: seq<EmailOtp>, email: string, code: string, now: int) {
    && OtpOf(otps, email).Some?
    && var o := otps[OtpOf(otps, email).value];
    && now <= o.expiresAt && o.otp == code && !o.verified
  }

  datatype RegisterRequest = RegisterRequest(fullName: string, email: string, password: string, cnic: string, otp: string)

  /** What foreign code hands back during registration, each of which may
      fail: the bcrypt hash of the password, the key pair (public and
      private key, hex), the encrypted private key, whether the user
      insertion succeeded, and the signed token. `userId` and `walletDocId`
      are the fresh ObjectIDs of the user and the wallet document. */
  datatype Issued = Issued(
    passwordHash: Option<string>,
    keyPair: Option<(string, string)>,
    encryptedKey: Option<string>,
    inserted: bool,
    token: Option<string>,
    userId: string,
    walletDocId: string)

  const NoOtp := "No OTP found for this email. Please request a new OTP."
  const OtpExpired := "OTP has expired. Please request a new OTP."
  const InvalidOtp := "Invalid OTP"
  const OtpUsed := "OTP already used for this email. Please request a new OTP."
  const EmailTaken := "email already registered"
  const HashFailed := "failed to hash password"
  const KeyPairFailed := "failed to generate keypair"
  const EncryptFailed := "failed to encrypt private key"
  const CreateFailed := "failed to create user"
  const TokenFailed := "failed to generate token"
  const Registered := "registration successful"
  const LoggedIn := "login successful"
  const InvalidCredentials := "invalid credentials"

  /** The OTP checks of registration, in order; `None` when all pass. */
  function OtpRefusal(otps: seq<EmailOtp>, email: string, code: string, now: int): (m: Option<string>)
    ensures m.None? <==> Redeemable(otps, email, code, now)
    ensures m.Some? ==> m.value in {NoOtp, OtpExpired, InvalidOtp, OtpUsed}
  {
    match OtpOf(otps, email)
    case None => Some(NoOtp)
    case Some(i) =>
      var o := otps[i];
      if now > o.expiresAt then Some(OtpExpired)
      else if o.otp != code then Some(InvalidOtp)
      else if o.verified then Some(OtpUsed)
      else None
  }

  /** The user registration creates; the wallet id is the hex SHA-256 of
      the public key's hex text. */
  function NewUser(p: Primitives, q: RegisterRequest, hash: string, pubKey: string, encrypted: string,
                   id: string, now: int): (u: User)
    ensures u.email == q.email && u.fullName == q.fullName && u.cnic == q.cnic
    ensures u.walletId == HashString(p, pubKey) && u.publicKey == pubKey
    ensures u.emailVerified && u.beneficiaries == [] && u.zakatDeducted == 0.0
    ensures u.createdAt == now && u.updatedAt == now
  {
    User(id, q.fullName, q.email, hash, q.cnic, HashString(p, pubKey), pubKey, encrypted, [], 0.0, now, now, true)
  }

  /** The reply of a successful registration or login. */
  function AuthBody(message: string, token: string, u: User): map<string, Json> {
    map["message" := JString(message),
        "token" := JString(token),
        "user" := JObject(map["full_name" := JString(u.fullName),
                              "email" := JString(u.email),
                              "wallet_id" := JString(u.walletId),
                              "email_verified" := JBool(u.emailVerified)])]
  }

  function MarkUsed(otps: seq<EmailOtp>, i: nat): seq<EmailOtp>
    requires i < |otps|
  {
    otps[i := otps[i].(verified := true)]
  }

  /** `POST /api/auth/register`. */
  function Register(p: Primitives, db: Db, body: Body<RegisterRequest>, now: int, s: Issued): (r: Handled)
    ensures body.Malformed? ==> r == Handled(BindFailure, db)
    ensures body.Parsed? && !Redeemable(db.otps, body.value.email, body.value.otp, now) ==>
      r.db == db && r.reply.Status() == 400
    ensures body.Parsed? && OtpRefusal(db.otps, body.value.email, body.value.otp, now).Some? ==>
      r == Handled(Failure(400, OtpRefusal(db.otps, body.value.email, body.value.otp, now).value), db)
    ensures body.Parsed? && Redeemable(db.otps, body.value.email, body.value.otp, now)
            && UserByEmail(db.users, body.value.email).None? ==>
      && (s.passwordHash.None? ==> r.reply == Failure(500, HashFailed))
      && (s.passwordHash.Some? && s.keyPair.None? ==> r.reply == Failure(500, KeyPairFailed))
      && (s.passwordHash.Some? && s.keyPair.Some? && s.encryptedKey.None? ==> r.reply == Failure(500, EncryptFailed))
      && (s.passwordHash.Some? && s.keyPair.Some? && s.encryptedKey.Some? && !s.inserted ==>
            r.reply == Failure(500, CreateFailed))
    ensures body.Parsed? && Redeemable(db.otps, body.value.email, body.value.otp, now)
            && UserByEmail(db.users, body.value.email).None?
            && s.passwordHash.Some? && s.keyPair.Some? && s.encryptedKey.Some? && s.inserted ==>
      var u := NewUser(p, body.value, s.passwordHash.value, s.keyPair.value.0, s.encryptedKey.value, s.userId, now);
      && r.db == db.(otps := MarkUsed(db.otps, OtpOf(db.otps, body.value.email).value),
                     users := db.users + [u],
                     wallets := db.wallets + [WalletDoc(s.walletDocId, u.walletId, s.userId)])
      && r.reply == (if s.token.Some? then Success(AuthBody(Registered, s.token.value, u))
                     else Failure(500, TokenFailed))
    ensures body.Parsed? && Redeemable(db.otps, body.value.email, body.value.otp, now) ==>
      && r.db.otps == MarkUsed(db.otps, OtpOf(db.otps, body.value.email).value)
      && (UserByEmail(db.users, body.value.email).Some? ==>
            r == Handled(Failure(400, EmailTaken), db.(otps := MarkUsed(db.otps, OtpOf(db.otps, body.value.email).value))))
    ensures r.db.users != db.users ==>
      && body.Parsed?
      && UserByEmail(db.users, body.value.email).None?
      && s.passwordHash.Some? && s.keyPair.Some? && s.encryptedKey.Some? && s.inserted
      && r.db.users == db.users + [NewUser(p, body.value, s.passwordHash.value, s.keyPair.value.0,
                                           s.encryptedKey.value, s.userId, now)]
      && r.db.wallets == db.wallets + [WalletDoc(s.walletDocId, HashString(p, s.keyPair.value.0), s.userId)]
    ensures r.reply.Success? ==>
      && r.db.users != db.users && s.token.Some?
      && r.reply.body == AuthBody(Registered, s.token.value, r.db.users[|db.users|])
  {
    match body
    case Malformed => Handled(BindFailure, db)
    case Parsed(q) =>
      match OtpRefusal(db.otps, q.email, q.otp, now)
      case Some(m) => Handled(Failure(400, m), db)
      case None =>
        // The handler discards the error of this update; it is modelled as always applying.
        var used := db.(otps := MarkUsed(db.otps, OtpOf(db.otps, q.email).value));
        if UserByEmail(used.users, q.email).Some? then Handled(Failure(400, EmailTaken), used)
        else if s.passwordHash.None? then Handled(Failure(500, HashFailed), used)
        else if s.keyPair.None? then Handled(Failure(500, KeyPairFailed), used)
        else if s.encryptedKey.None? then Handled(Failure(500, EncryptFailed), used)
        else if !s.inserted then Handled(Failure(500, CreateFailed), used)
        else
          var u := NewUser(p, q, s.passwordHash.value, s.keyPair.value.0, s.encryptedKey.value, s.userId, now);
          // The wallet insertion's error is discarded; it is modelled as always adding the wallet.
          var created := used.(users := used.users + [u],
                               wallets := used.wallets + [WalletDoc(s.walletDocId, u.walletId, u.id)]);
          assert created.users != db.users by {
            assert |created.users| == |db.users| + 1;
          }
          match s.token
          case None => Handled(Failure(500, TokenFailed), created)
          case Some(t) => Handled(Success(AuthBody(Registered, t, u)), created)
  }

  /** The checks run in order: a code that is both expired and wrong is
      refused as expired, and a used code that is still valid and correct
      is refused as used. */
  lemma ExpiryCheckedFirst(otps: seq<EmailOtp>, email: string, code: string, now: int)
    requires OtpOf(otps, email).Some?
    ensures var o := otps[OtpOf(otps, email).value];
      && (now > o.expiresAt ==> OtpRefusal(otps, email, code, now) == Some(OtpExpired))
      && (now <= o.expiresAt && o.otp == code && o.verified ==> OtpRefusal(otps, email, code, now) == Some(OtpUsed))
  {
  }

  /** A code is good for one registration attempt: once the checks pass it
      is marked used, even when the attempt then fails (a taken e-mail, a
      failing dependency), so repeating the request is refused as used. */
  lemma RegisterConsumesOtp(p: Primitives, db: Db, q: RegisterRequest, now: int, s: Issued, s2: Issued)
    requires Redeemable(db.otps, q.email, q.otp, now)
    ensures var again := Register(p, Register(p, db, Parsed(q), now, s).db, Parsed(q), now, s2);
      again.reply == Failure(400, OtpUsed)
  {
    var after := Register(p, db, Parsed(q), now, s).db;
    var i := OtpOf(db.otps, q.email).value;
    FirstWhereUpdate(db.otps, i, db.otps[i].(verified := true), (o: EmailOtp) => o.email == q.email);
    assert OtpOf(after.otps, q.email) == Some(i);
  }

  /** A code obtained from `request-otp` passes the registration checks for
      the same e-mail until it expires. */
  lemma RequestedOtpRedeemable(db: Db, email: string, draw: nat, now: int, mailError: Option<string>, later: int)
    requires draw < 1000000
    requires now <= later <= now + OtpLifetime
    ensures Redeemable(RequestOtp(db, Parsed(email), draw, now, true, mailError).db.otps, email, ZeroPad6(draw), later)
  {
  }

  /** Requesting a code for one e-mail leaves the record of every other
      e-mail as it was. */
  lemma RequestOtpKeepsOthers(db: Db, email: string, draw: nat, now: int, mailError: Option<string>)
    requires draw < 1000000
    ensures var after := RequestOtp(db, Parsed(email), draw, now, true, mailError).db.otps;
      && |after| >= |db.otps|
      && forall j :: 0 <= j < |db.otps| && db.otps[j].email != email ==> after[j] == db.otps[j]
  {
  }

  datatype LoginRequest = LoginRequest(email: string, password: string)

  /** `POST /api/auth/login`. `matches(hash, password)` is bcrypt's
      comparison; `token` is the signed token, or `None` when signing
      fails. Login writes nothing. */
  function Login(users: seq<User>, body: Body<LoginRequest>, matches: (string, string) -> bool,
                 token: Option<string>): (r: Reply)
    ensures body.Malformed? ==> r == BindFailure
    ensures body.Parsed? ==>
      var i := UserByEmail(users, body.value.email);
      && (i.None? || !matches(users[i.value].passwordHash, body.value.password) <==> r == Failure(401, InvalidCredentials))
      && (r.Success? <==> i.Some? && matches(users[i.value].passwordHash, body.value.password) && token.Some?)
      && (r.Success? ==> r.body == AuthBody(LoggedIn, token.value, users[i.value]))
  {
    match body
    case Malformed => BindFailure
    case Parsed(q) =>
      match UserByEmail(users, q.email)
      case None => Failure(401, InvalidCredentials)
      case Some(i) =>
        if !matches(users[i].passwordHash, q.password) then Failure(401, InvalidCredentials)
        else if token.None? then Failure(500, TokenFailed)
        else Success(AuthBody(LoggedIn, token.value, users[i]))
  }

  /** An unknown e-mail and a wrong password get the same reply, so the
      reply does not tell which e-mails are registered. */
  lemma LoginIndistinguishable(users: seq<User>, q: LoginRequest, q2: LoginRequest,
                               matches: (string, string) -> bool, t: Option<string>)
    requires UserByEmail(users, q.email).None?
    requires UserByEmail(users, q2.email).Some?
    requires !matches(users[UserByEmail(users, q2.email).value].passwordHash, q2.password)
    ensures Login(users, Parsed(q), matches, t) == Login(users, Parsed(q2), matches, t)
  {
  }

  /** After a successful registration, logging in with the same e-mail and
      password (for which bcrypt accepts the stored hash) returns the new
      user. */
  lemma RegisterThenLogin(p: Primitives, db: Db, q: RegisterRequest, now: int, s: Issued,
                          matches: (string, string) -> bool, t: string)
    requires Register(p, db, Parsed(q), now, s).reply.Success?
    requires s.passwordHash.Some? && matches(s.passwordHash.value, q.password)
    ensures var after := Register(p, db, Parsed(q), now, s).db;
      Login(after.users, Parsed(LoginRequest(q.email, q.password)), matches, Some(t))
        == Success(AuthBody(LoggedIn, t, after.users[|db.users|]))
  {
    var after := Register(p, db, Parsed(q), now, s).db;
    var u := after.users[|db.users|];
    FirstWhereAppend(db.users, u, (v: User) => v.email == q.email);
  }
}
