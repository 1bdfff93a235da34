/** The dashboard page: the quick counters it derives from the wallet's
    transaction history, the all-or-nothing refresh of its figures, the
    message after mining, and the two steps of an e-mail change. */
module Dashboard {
  import opened Wrappers
  import opened Ledger
  import opened Http
  import opened Store
  import opened Client
  import Reports
  import Profile
  import Mining
  import Accounts
  import Text

  // ---------------------------------------------------------------------
  // Counters

  datatype Counts = Counts(pending: nat, sent: nat, received: nat)

  function PendingFrom(w: string): Tx -> bool {
    (t: Tx) => t.status == StatusPending && t.sender == w
  }

  function SentFrom(w: string): Tx -> bool {
    (t: Tx) => t.sender == w
  }

  function ReceivedBy(w: string): Tx -> bool {
    (t: Tx) => t.receiver == w
  }

  /** The counters for the signed-in wallet; all zero when the session
      carries no wallet id. */
  function Stats(txs: seq<Tx>, walletId: Option<string>): (c: Counts)
    ensures !Truthy(walletId) ==> c == Counts(0, 0, 0)
    ensures Truthy(walletId) ==>
      && c.pending == |Filter(txs, PendingFrom(walletId.value))|
      && c.sent == |Filter(txs, SentFrom(walletId.value))|
      && c.received == |Filter(txs, ReceivedBy(walletId.value))|
    ensures c.pending <= c.sent
    ensures c.sent <= |txs| && c.received <= |txs|
  {
    if !Truthy(walletId) then Counts(0, 0, 0)
    else
      var w := walletId.value;
      FilterStronger(txs, PendingFrom(w), SentFrom(w));
      Counts(|Filter(txs, PendingFrom(w))|, |Filter(txs, SentFrom(w))|, |Filter(txs, ReceivedBy(w))|)
  }

  /** A stronger filter keeps no more elements. */
  lemma {:induction false} FilterStronger(s: seq<Tx>, f: Tx -> bool, g: Tx -> bool)
    requires forall t :: f(t) ==> g(t)
    ensures |Filter(s, f)| <= |Filter(s, g)|
  {
    if |s| > 0 {
      FilterStronger(s[1..], f, g);
    }
  }

  /** The number of elements a filter keeps does not depend on their
      order. */
  lemma CountPermutation(a: seq<Tx>, b: seq<Tx>, f: Tx -> bool)
    requires multiset(a) == multiset(b)
    ensures |Filter(a, f)| == |Filter(b, f)|
  {
    Reports.AggregateIsFilter(a, f);
    Reports.AggregateIsFilter(b, f);
    Reports.AggregatePermutation(a, b, f);
  }

  /** The counters do not depend on the order of the history, and an empty
      history gives zeros. */
  lemma StatsOrderFree(a: seq<Tx>, b: seq<Tx>, walletId: Option<string>)
    requires multiset(a) == multiset(b)
    ensures Stats(a, walletId) == Stats(b, walletId)
    ensures Stats([], walletId) == Counts(0, 0, 0)
  {
    if Truthy(walletId) {
      var w := walletId.value;
      CountPermutation(a, b, PendingFrom(w));
      CountPermutation(a, b, SentFrom(w));
      CountPermutation(a, b, ReceivedBy(w));
    }
  }

  // ---------------------------------------------------------------------
  // Refreshing the figures

  /** The figures the page shows. `balance` is `None` before the first
      load. */
  datatype Dash = Dash(balance: Option<real>, utxos: seq<Json>, counts: Counts, error: string, loading: bool)

  /** The three replies when all requests succeed: the `balance` field
      (`None` when missing or null), the `utxos` field and the
      `transactions` field. */
  datatype Fetched = Fetched(balance: Option<real>, utxos: JsonList<Json>, txs: JsonList<Tx>)

  /** The outcome of the three concurrent requests: all answered, or the
      combined request rejected with the error of whichever failed first,
      carrying the server's `error` text when there is one. */
  datatype Load = Loaded(data: Fetched) | Rejected(serverError: Option<string>)

  const LoadFallback := "Failed to load dashboard data. Check backend."

  function ListOrEmpty<T>(l: JsonList<T>): seq<T> {
    if l.Array? then l.items else []
  }

  /** `loadData`. The figures are set one after the other inside one
      `try`: when the history is not an array while a wallet id is known,
      filtering it throws after the balance and the outputs are already
      set, and the catch shows the page's fallback text. */
  function LoadData(d: Dash, walletId: Option<string>, outcome: Load): (r: Dash)
    ensures !r.loading
    ensures outcome.Rejected? ==> r == d.(error := TextOr(outcome.serverError, LoadFallback), loading := false)
    ensures outcome.Loaded? ==>
      && r.balance == Some(if outcome.data.balance.Some? then outcome.data.balance.value else 0.0)
      && r.utxos == ListOrEmpty(outcome.data.utxos)
    ensures outcome.Loaded? && (!outcome.data.txs.NotArray? || !Truthy(walletId)) ==>
      && r.error == ""
      && r.counts == Stats(ListOrEmpty(outcome.data.txs), walletId)
    ensures outcome.Loaded? && outcome.data.txs.NotArray? && Truthy(walletId) ==>
      && r.counts == d.counts
      && r.error == LoadFallback
  {
    match outcome
    case Rejected(e) => d.(error := TextOr(e, LoadFallback), loading := false)
    case Loaded(f) =>
      var b := if f.balance.Some? then f.balance.value else 0.0;
      var written := d.(balance := Some(b), utxos := ListOrEmpty(f.utxos), error := "");
      if f.txs.NotArray? && Truthy(walletId) then
        written.(error := TextOr(None, LoadFallback), loading := false)
      else
        written.(counts := Stats(ListOrEmpty(f.txs), walletId), loading := false)
  }

  /** A refresh that fails leaves every figure as it was; one that succeeds
      clears the error. */
  lemma LoadAllOrNothing(d: Dash, walletId: Option<string>, outcome: Load)
    ensures outcome.Rejected? ==>
      var r := LoadData(d, walletId, outcome);
      r.balance == d.balance && r.utxos == d.utxos && r.counts == d.counts
    ensures LoadData(d, walletId, outcome).error == "" <==>
      outcome.Loaded? && (!outcome.data.txs.NotArray? || !Truthy(walletId))
  {
  }

  // ---------------------------------------------------------------------
  // The mining button

  /** A field as the template shows it: its rendering when present and not
      null, else "?". */
  function Shown(render: Json -> string, body: map<string, Json>, key: string): string {
    if key in body && body[key] != JNull then render(body[key]) else "?"
  }

  /** The message after a successful mining request. `render` is the
      browser's rendering of a JSON value inside a template string. */
  function MineMessage(render: Json -> string, body: map<string, Json>): string {
    "Mined block #" + Shown(render, body, "block_index")
      + " | reward " + Shown(render, body, "reward_amount")
      + " | txs: " + Shown(render, body, "tx_count")
  }

  /** The page asks for `tx_count`, which the mining reply never carries:
      the count always shows as "?", while the block index and the reward
      show their values. */
  lemma MineMessageNeverCounts(render: Json -> string, b: Block, miner: string, n: nat)
    ensures var body := Mining.MinedBody(b, miner, n);
      && MineMessage(render, body)
           == "Mined block #" + render(body["block_index"]) + " | reward " + render(body["reward_amount"]) + " | txs: ?"
  {
    Mining.MinedBodyHasNoTxCount(b, miner, n);
  }

  // ---------------------------------------------------------------------
  // Changing the e-mail

  /** The profile card's form: the e-mail shown, the two inputs of the
      change, and its three message lines. */
  datatype Form = Form(email: string, newEmail: string, emailOtp: string,
                       profileMsg: string, profileError: string, stepMsg: string)

  const InvalidNewEmail := "Enter a valid new email first."
  const OtpSentMsg := "OTP sent to the new email address. Enter it below to confirm the change."
  const SendFallback := "Failed to send OTP to new email."
  const BothRequired := "New email and OTP are required."
  const EmailUpdated := "Email updated."
  const ConfirmFallback := "Failed to update email with OTP."

  /** A step of the change: the form afterwards and the request sent, if
      any. */
  datatype Step<R> = Step(form: Form, request: Option<R>)

  predicate PlausibleEmail(s: string) {
    s != "" && '@' in s
  }

  /** Sending a code to the new address. The step message and the error
      are cleared first; an empty address or one without "@" is refused
      without a request. */
  function SendEmailOtp(f: Form, answer: Answer): (r: Step<string>)
    ensures r.request.Some? <==> PlausibleEmail(f.newEmail)
    ensures r.request.Some? ==> r.request.value == f.newEmail
    ensures !PlausibleEmail(f.newEmail) ==> r.form == f.(stepMsg := "", profileError := InvalidNewEmail)
    ensures PlausibleEmail(f.newEmail) && answer.Answered? ==> r.form == f.(stepMsg := OtpSentMsg, profileError := "")
    ensures PlausibleEmail(f.newEmail) && answer.Refused? ==>
      r.form == f.(stepMsg := "", profileError := TextOr(answer.serverError, SendFallback))
    ensures r.form.email == f.email && r.form.newEmail == f.newEmail && r.form.emailOtp == f.emailOtp
  {
    var cleared := f.(stepMsg := "", profileError := "");
    if !PlausibleEmail(f.newEmail) then Step(cleared.(profileError := InvalidNewEmail), None)
    else match answer
      case Answered(_) => Step(cleared.(stepMsg := OtpSentMsg), Some(f.newEmail))
      case Refused(e) => Step(cleared.(profileError := TextOr(e, SendFallback)), Some(f.newEmail))
  }

  /** Confirming the change. Both inputs must be non-empty, else only the
      error is set; on success the shown e-mail becomes the new one and
      both inputs are cleared. */
  function ConfirmEmailChange(f: Form, answer: Answer): (r: Step<Profile.ProfileUpdate>)
    ensures r.request.Some? <==> f.newEmail != "" && f.emailOtp != ""
    ensures r.request.Some? ==> r.request.value == Profile.ProfileUpdate(None, None, Some(f.newEmail), Some(f.emailOtp))
    ensures r.request.None? ==> r.form == f.(profileError := BothRequired)
    ensures r.request.Some? && answer.Answered? ==>
      r.form == f.(email := f.newEmail, newEmail := "", emailOtp := "", stepMsg := "", profileError := "",
                   profileMsg := TextOr(answer.message, EmailUpdated))
    ensures r.request.Some? && answer.Refused? ==>
      r.form == f.(stepMsg := "", profileError := TextOr(answer.serverError, ConfirmFallback))
  {
    if f.newEmail == "" || f.emailOtp == "" then Step(f.(profileError := BothRequired), None)
    else
      var request := Profile.ProfileUpdate(None, None, Some(f.newEmail), Some(f.emailOtp));
      var cleared := f.(profileError := "", stepMsg := "");
      match answer
      case Answered(m) =>
        Step(cleared.(profileMsg := TextOr(m, EmailUpdated), email := f.newEmail, newEmail := "", emailOtp := ""), Some(request))
      case Refused(e) => Step(cleared.(profileError := TextOr(e, ConfirmFallback)), Some(request))
  }

  /** The page never sends an e-mail change the service refuses for want of
      a code, and the change touches neither the name nor the CNIC. */
  lemma ConfirmCarriesCode(f: Form, answer: Answer, db: Db, userId: string, now: int, written: bool)
    ensures var r := ConfirmEmailChange(f, answer);
      r.request.Some? ==>
        && Profile.UpdateProfile(db, userId, Parsed(r.request.value), now, written).reply != Failure(400, Profile.OtpRequired)
        && !Profile.Changes(r.request.value.fullName, "") && !Profile.Changes(r.request.value.cnic, "")
  {
  }

  /** The whole e-mail change as the page drives it: the code the service
      mails to the address the page sent is, typed back in before it
      expires, accepted by the profile update, which stores the new
      address; the page then shows the address the service stored. */
  lemma EmailChangeFlow(f: Form, sent: Answer, db: Db, userId: string, draw: nat, now: int, later: int,
                        bindText: string)
    requires draw < 1000000 && now <= later <= now + Accounts.OtpLifetime
    requires userId != "" && UserById(db.users, userId).Some?
    requires PlausibleEmail(f.newEmail) && db.users[UserById(db.users, userId).value].email != f.newEmail
    ensures var send := SendEmailOtp(f, sent);
      && send.request.Some?
      && var withOtp := Accounts.RequestOtp(db, Parsed(send.request.value), draw, now, true, None).db;
      && var typed := send.form.(emailOtp := Text.ZeroPad6(draw));
      && ConfirmEmailChange(typed, sent).request.Some?
      && var r := Profile.UpdateProfile(withOtp, userId, Parsed(ConfirmEmailChange(typed, sent).request.value), later, true);
      && r.reply == Success(MessageBody(Profile.Updated))
      && r.db.users[UserById(db.users, userId).value].email == f.newEmail
      && ConfirmEmailChange(typed, AnswerOf(r.reply, bindText)).form.email == r.db.users[UserById(db.users, userId).value].email
  {
    Profile.RequestedOtpConfirmsChange(db, userId, f.newEmail, draw, now, later);
  }
}
