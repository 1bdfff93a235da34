/** The caller's profile: reading it, and updating name, CNIC and e-mail,
    where an e-mail change must be confirmed with an OTP sent to the new
    address. */
module Profile {
  import opened Wrappers
  import opened Http
  import opened Store
  import opened Accounts

  const MissingUser := "missing user id"
  const UserNotFound := "user not found"

  /** `GET /api/profile` for the user id in the token. */
  function GetProfile(users: seq<User>, userId: string): (r: Reply)
    ensures userId == "" ==> r == Failure(401, MissingUser)
    ensures userId != "" && UserById(users, userId).None? ==> r == Failure(500, UserNotFound)
    ensures r.Success? ==>
      var u := users[UserById(users, userId).value];
      && u.id == userId
      && r.body == map["id" := JString(u.id), "full_name" := JString(u.fullName),
                       "email" := JString(u.email), "cnic" := JString(u.cnic),
                       "wallet_id" := JString(u.walletId), "created_at" := JTime(u.createdAt)]
  {
    if userId == "" then Failure(401, MissingUser)
    else match UserById(users, userId)
      case None => Failure(500, UserNotFound)
      case Some(i) =>
        var u := users[i];
        Success(map["id" := JString(u.id), "full_name" := JString(u.fullName),
                    "email" := JString(u.email), "cnic" := JString(u.cnic),
                    "wallet_id" := JString(u.walletId), "created_at" := JTime(u.createdAt)])
  }

  /** The request: every field optional. */
  datatype ProfileUpdate = ProfileUpdate(
    fullName: Option<string>,
    cnic: Option<string>,
    email: Option<string>,
    emailOtp: Option<string>)

  const InvalidPayload := "invalid payload"
  const OtpRequired := "OTP is required to change email"
  const InvalidEmailOtp := "Invalid OTP for this email"
  const EmailOtpExpired := "OTP has expired. Please request a new one."
  const NoChanges := "no changes detected"
  const UpdateFailed := "failed to update profile"
  const Updated := "profile updated successfully"

  /** A field is queued for update when it is present, non-empty and
      different from the stored value. */
  predicate Changes(requested: Option<string>, stored: string) {
    Truthy(requested) && requested.value != stored
  }

  /** The OTP record an e-mail change is checked against: the first one for
      that e-mail and code that has not been used. */
  function PendingOtp(otps: seq<EmailOtp>, email: string, code: string): Option<nat> {
    FirstWhere(otps, (o: EmailOtp) => o.email == email && o.otp == code && !o.verified)
  }

  /** The record marking as used touches: the first one for that e-mail and
      code, used or not. */
  function MatchingOtp(otps: seq<EmailOtp>, email: string, code: string): Option<nat> {
    FirstWhere(otps, (o: EmailOtp) => o.email == email && o.otp == code)
  }

  function MarkMatching(otps: seq<EmailOtp>, email: string, code: string): (r: seq<EmailOtp>)
    ensures |r| == |otps|
  {
    match MatchingOtp(otps, email, code)
    case None => otps
    case Some(j) => otps[j := otps[j].(verified := true)]
  }

  /** The stored user after the queued changes are applied at `now`. */
  function Revised(u: User, q: ProfileUpdate, now: int): User {
    u.(fullName := if Changes(q.fullName, u.fullName) then q.fullName.value else u.fullName,
       cnic := if Changes(q.cnic, u.cnic) then q.cnic.value else u.cnic,
       email := if Changes(q.email, u.email) then q.email.value else u.email,
       updatedAt := now)
  }

  /** `PUT /api/profile` for the user id in the token. `written` says
      whether the final update of the user succeeds. */
  function UpdateProfile(db: Db, userId: string, body: Body<ProfileUpdate>, now: int, written: bool): (r: Handled)
    ensures userId == "" ==> r == Handled(Failure(401, MissingUser), db)
    ensures userId != "" && body.Malformed? ==> r == Handled(Failure(400, InvalidPayload), db)
    ensures r.reply.Status() == 400 || r.reply.Status() == 401 ==> r.db == db
    ensures r.db.users != db.users ==>
      && userId != "" && body.Parsed? && written
      && UserById(db.users, userId).Some?
      && var i := UserById(db.users, userId).value;
      && var u := db.users[i];
      && var q := body.value;
      && (Changes(q.fullName, u.fullName) || Changes(q.cnic, u.cnic) || Changes(q.email, u.email))
      && r.db.users == db.users[i := Revised(u, q, now)]
      && r.reply == Success(MessageBody(Updated))
    ensures r.db.otps != db.otps || (r.db.users != db.users && r.db.users[UserById(db.users, userId).value].email
                                                          != db.users[UserById(db.users, userId).value].email) ==>
      var q := body.value;
      && q.email.Some? && Truthy(q.emailOtp)
      && PendingOtp(db.otps, q.email.value, q.emailOtp.value).Some?
      && now <= db.otps[PendingOtp(db.otps, q.email.value, q.emailOtp.value).value].expiresAt
      && r.db.otps == MarkMatching(db.otps, q.email.value, q.emailOtp.value)
    ensures r.reply == Success(MessageBody(Updated)) ==>
      && userId != "" && body.Parsed? && UserById(db.users, userId).Some?
      && r.db.users == db.users[UserById(db.users, userId).value := Revised(db.users[UserById(db.users, userId).value], body.value, now)]
    ensures r.db == db.(users := r.db.users, otps := r.db.otps)
    ensures userId != "" && body.Parsed? && UserById(db.users, userId).None? ==>
      r == Handled(Failure(500, UserNotFound), db)
    ensures userId != "" && body.Parsed? && UserById(db.users, userId).Some? ==>
      var i := UserById(db.users, userId).value;
      var u := db.users[i];
      var q := body.value;
      var nameOrCnic := Changes(q.fullName, u.fullName) || Changes(q.cnic, u.cnic);
      var revised := db.users[i := Revised(u, q, now)];
      && (!Changes(q.email, u.email) && !nameOrCnic ==> r == Handled(Success(MessageBody(NoChanges)), db))
      && (!Changes(q.email, u.email) && nameOrCnic ==>
            r == (if written then Handled(Success(MessageBody(Updated)), db.(users := revised))
                  else Handled(Failure(500, UpdateFailed), db)))
      && (Changes(q.email, u.email) && !Truthy(q.emailOtp) ==> r == Handled(Failure(400, OtpRequired), db))
      && (Changes(q.email, u.email) && Truthy(q.emailOtp) ==>
            var pending := PendingOtp(db.otps, q.email.value, q.emailOtp.value);
            var marked := db.(otps := MarkMatching(db.otps, q.email.value, q.emailOtp.value));
            && (pending.None? ==> r == Handled(Failure(400, InvalidEmailOtp), db))
            && (pending.Some? && now > db.otps[pending.value].expiresAt ==>
                  r == Handled(Failure(400, EmailOtpExpired), db))
            && (pending.Some? && now <= db.otps[pending.value].expiresAt ==>
                  r == (if written then Handled(Success(MessageBody(Updated)), marked.(users := revised))
                        else Handled(Failure(500, UpdateFailed), marked))))
  {
    if userId == "" then Handled(Failure(401, MissingUser), db)
    else match body
      case Malformed => Handled(Failure(400, InvalidPayload), db)
      case Parsed(q) =>
        match UserById(db.users, userId)
        case None => Handled(Failure(500, UserNotFound), db)
        case Some(i) =>
          var u := db.users[i];
          var nameOrCnic := Changes(q.fullName, u.fullName) || Changes(q.cnic, u.cnic);
          if Changes(q.email, u.email) then
            if !Truthy(q.emailOtp) then Handled(Failure(400, OtpRequired), db)
            else match PendingOtp(db.otps, q.email.value, q.emailOtp.value)
              case None => Handled(Failure(400, InvalidEmailOtp), db)
              case Some(j) =>
                if now > db.otps[j].expiresAt then Handled(Failure(400, EmailOtpExpired), db)
                else
                  var marked := db.(otps := MarkMatching(db.otps, q.email.value, q.emailOtp.value));
                  if !written then Handled(Failure(500, UpdateFailed), marked)
                  else Handled(Success(MessageBody(Updated)), marked.(users := db.users[i := Revised(u, q, now)]))
          else if !nameOrCnic then
            assert MessageBody(NoChanges)["message"] != MessageBody(Updated)["message"];
            Handled(Success(MessageBody(NoChanges)), db)
          else if !written then Handled(Failure(500, UpdateFailed), db)
          else Handled(Success(MessageBody(Updated)), db.(users := db.users[i := Revised(u, q, now)]))
  }

  /** Repeating an update that succeeded changes nothing more: every
      requested value is now the stored one. */
  lemma UpdateIdempotent(db: Db, userId: string, q: ProfileUpdate, now: int, later: int)
    requires UpdateProfile(db, userId, Parsed(q), now, true).reply == Success(MessageBody(Updated))
    ensures var after := UpdateProfile(db, userId, Parsed(q), now, true).db;
      UpdateProfile(after, userId, Parsed(q), later, true) == Handled(Success(MessageBody(NoChanges)), after)
  {
    var after := UpdateProfile(db, userId, Parsed(q), now, true).db;
    var i := UserById(db.users, userId).value;
    var u := db.users[i];
    FirstWhereUpdate(db.users, i, Revised(u, q, now), (v: User) => v.id == userId);
    assert UserById(after.users, userId) == Some(i);
  }

  /** After a successful update, reading the profile shows the new values. */
  lemma UpdateThenGet(db: Db, userId: string, q: ProfileUpdate, now: int)
    requires UpdateProfile(db, userId, Parsed(q), now, true).reply == Success(MessageBody(Updated))
    ensures var after := UpdateProfile(db, userId, Parsed(q), now, true).db;
      var u := db.users[UserById(db.users, userId).value];
      var r := GetProfile(after.users, userId);
      && r.Success?
      && r.body["full_name"] == JString(if Changes(q.fullName, u.fullName) then q.fullName.value else u.fullName)
      && r.body["cnic"] == JString(if Changes(q.cnic, u.cnic) then q.cnic.value else u.cnic)
      && r.body["email"] == JString(if Changes(q.email, u.email) then q.email.value else u.email)
  {
    var i := UserById(db.users, userId).value;
    var after := UpdateProfile(db, userId, Parsed(q), now, true).db;
    FirstWhereUpdate(db.users, i, Revised(db.users[i], q, now), (v: User) => v.id == userId);
    ProfileFields(after.users, userId, i);
  }

  lemma ProfileFields(users: seq<User>, userId: string, i: nat)
    requires userId != "" && UserById(users, userId) == Some(i)
    ensures var r := GetProfile(users, userId);
      && r.Success?
      && r.body["full_name"] == JString(users[i].fullName)
      && r.body["cnic"] == JString(users[i].cnic)
      && r.body["email"] == JString(users[i].email)
  {
  }

  /** A code from `request-otp` for the new address confirms an e-mail
      change until it expires, when the store holds one record per
      e-mail. */
  lemma RequestedOtpConfirmsChange(db: Db, userId: string, email: string, draw: nat, now: int, later: int)
    requires draw < 1000000 && now <= later <= now + OtpLifetime
    requires userId != "" && UserById(db.users, userId).Some?
    requires db.users[UserById(db.users, userId).value].email != email && email != ""
    ensures var withOtp := RequestOtp(db, Parsed(email), draw, now, true, None).db;
      var q := ProfileUpdate(None, None, Some(email), Some(Text.ZeroPad6(draw)));
      var r := UpdateProfile(withOtp, userId, Parsed(q), later, true);
      && r.reply == Success(MessageBody(Updated))
      && r.db.users[UserById(db.users, userId).value].email == email
  {
    var withOtp := RequestOtp(db, Parsed(email), draw, now, true, None).db;
    var code := Text.ZeroPad6(draw);
    var k := OtpOf(withOtp.otps, email).value;
    assert withOtp.otps[k] == EmailOtp(email, code, now + OtpLifetime, false);
    var f := (o: EmailOtp) => o.email == email && o.otp == code && !o.verified;
    var pending := PendingOtp(withOtp.otps, email, code);
    assert f(withOtp.otps[k]);
    assert pending.Some?;
    assert forall j :: 0 <= j < k ==> withOtp.otps[j].email != email;
    assert pending.value == k;
  }

  /** Marking as used filters on e-mail and code but not on `verified`, so
      when an earlier used record carries the same code it is that one
      which is marked again, and the record the change was checked
      against stays redeemable. */
  lemma MarkMissesPending(email: string, code: string)
    ensures var otps := [EmailOtp(email, code, 0, true), EmailOtp(email, code, 100, false)];
      && PendingOtp(otps, email, code) == Some(1)
      && MarkMatching(otps, email, code) == otps
      && PendingOtp(MarkMatching(otps, email, code), email, code) == Some(1)
  {
    var otps := [EmailOtp(email, code, 0, true), EmailOtp(email, code, 100, false)];
    var pending := PendingOtp(otps, email, code);
    assert otps[0].verified && !otps[1].verified;
    assert pending.Some?;
    assert pending.value != 0;
    assert MatchingOtp(otps, email, code) == Some(0);
    assert otps[0 := otps[0].(verified := true)] == otps;
  }

  /** With at most one record per e-mail, as `request-otp` keeps it, the
      record marked is the one checked. */
  lemma MarkHitsPending(otps: seq<EmailOtp>, email: string, code: string)
    requires forall i, j :: 0 <= i < j < |otps| ==> otps[i].email != otps[j].email
    requires PendingOtp(otps, email, code).Some?
    ensures var k := PendingOtp(otps, email, code).value;
      && MarkMatching(otps, email, code) == otps[k := otps[k].(verified := true)]
      && PendingOtp(MarkMatching(otps, email, code), email, code).None?
  {
    var k := PendingOtp(otps, email, code).value;
    var m := MatchingOtp(otps, email, code);
    assert m.Some?;
    assert m.value == k;
    var after := otps[k := otps[k].(verified := true)];
    assert forall j :: 0 <= j < |after| ==> !(after[j].email == email && after[j].otp == code && !after[j].verified);
  }
}
