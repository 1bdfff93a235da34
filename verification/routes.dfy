/** The HTTP surface of the service: which routes exist and which sit
    behind the token check, the self-service zakat handler that turns the
    zakat run's refusals into replies, and the block-detail stub. */
module Routes {
  import opened Wrappers
  import opened Ledger
  import opened Http
  import opened Store
  import opened Zakat

  datatype Verb = Get | Post | Put

  /** Every handler of the API package, routed or not. */
  datatype Handler =
    | RequestOtp | Register | Login
    | GetProfile | UpdateProfile
    | GetWalletProfile | GetBalance | GetUtxos | UpdateBeneficiaries
    | CreateTransaction | GetTxHistory
    | GetBlocks | GetBlockById | MinePending
    | RunSelfZakat | GetReportsSummary
    | GetSystemLogs | GetTxLogs
    | AdminFundWallet

  /** A route: verb, path under `/api`, whether the path ends in one
      parameter segment (`/blocks/:id`), the handler, and whether the token
      middleware guards it. For a parameter route `path` is the fixed part
      in front of the parameter. */
  datatype Route = Route(verb: Verb, path: string, param: bool, handler: Handler, guarded: bool)

  /** The table `RegisterRoutes` builds: the open authentication routes,
      then the group behind the token middleware. */
  const Table: seq<Route> := AuthRoutes + GuardedRoutes

  const AuthRoutes: seq<Route> := [
    Route(Post, "/auth/request-otp", false, RequestOtp, false),
    Route(Post, "/auth/register", false, Register, false),
    Route(Post, "/auth/login", false, Login, false)
  ]

  const GuardedRoutes: seq<Route> := [
    Route(Get, "/profile", false, GetProfile, true),
    Route(Put, "/profile", false, UpdateProfile, true),
    Route(Get, "/wallet", false, GetWalletProfile, true),
    Route(Get, "/wallet/balance", false, GetBalance, true),
    Route(Get, "/wallet/utxos", false, GetUtxos, true),
    Route(Post, "/wallet/beneficiaries", false, UpdateBeneficiaries, true),
    Route(Post, "/tx", false, CreateTransaction, true),
    Route(Get, "/tx/history", false, GetTxHistory, true),
    Route(Get, "/blocks", false, GetBlocks, true),
    Route(Get, "/blocks/", true, GetBlockById, true),
    Route(Post, "/admin/mine", false, MinePending, true),
    Route(Post, "/zakat/run-self", false, RunSelfZakat, true),
    Route(Get, "/reports/summary", false, GetReportsSummary, true),
    Route(Get, "/logs/system", false, GetSystemLogs, true),
    Route(Get, "/logs/transactions", false, GetTxLogs, true)
  ]

  /** A request path matches a fixed route exactly, and a parameter route
      when it extends the fixed part by one non-empty segment. */
  predicate Matches(r: Route, verb: Verb, path: string) {
    && r.verb == verb
    && if r.param then
         && |r.path| < |path| && r.path == path[..|r.path|]
         && forall i :: |r.path| <= i < |path| ==> path[i] != '/'
       else path == r.path
  }

  /** What the router does with a request: no route, the token middleware
      refuses it, or the handler runs. Whether a token is valid is decided
      by the token middleware, which is not part of this model. */
  datatype Dispatched = NotFound | Unauthorized | Runs(handler: Handler)

  function Dispatch(table: seq<Route>, verb: Verb, path: string, tokenValid: bool): (d: Dispatched)
    ensures d.Runs? ==> exists i :: 0 <= i < |table| && Matches(table[i], verb, path) && table[i].handler == d.handler
    ensures d.NotFound? <==> forall i :: 0 <= i < |table| ==> !Matches(table[i], verb, path)
    ensures d.Unauthorized? ==> !tokenValid
    ensures forall i :: 0 <= i < |table| && Matches(table[i], verb, path) && FirstMatch(table, verb, path, i) ==>
      d == (if table[i].guarded && !tokenValid then Unauthorized else Runs(table[i].handler))
  {
    if |table| == 0 then NotFound
    else if Matches(table[0], verb, path) then
      (if table[0].guarded && !tokenValid then Unauthorized else Runs(table[0].handler))
    else
      var d := Dispatch(table[1..], verb, path, tokenValid);
      assert d.Runs? ==> exists i :: 1 <= i < |table| && Matches(table[i], verb, path) && table[i].handler == d.handler;
      assert forall i :: 1 <= i < |table| && FirstMatch(table, verb, path, i) ==> FirstMatch(table[1..], verb, path, i - 1);
      d
  }

  /** No route in front of `i` matches the request. */
  predicate FirstMatch(table: seq<Route>, verb: Verb, path: string, i: int) {
    forall j :: 0 <= j < i && j < |table| ==> !Matches(table[j], verb, path)
  }

  predicate Public(h: Handler) {
    h == RequestOtp || h == Register || h == Login
  }

  /** Only the three authentication routes are open; every other route is
      guarded. */
  lemma PublicRoutes()
    ensures forall i :: 0 <= i < |Table| ==> (!Table[i].guarded <==> Public(Table[i].handler))
  {
  }

  /** Without a valid token only the authentication handlers run. */
  lemma {:induction false} GuardHolds(table: seq<Route>, verb: Verb, path: string)
    requires forall i :: 0 <= i < |table| ==> (!table[i].guarded <==> Public(table[i].handler))
    ensures Dispatch(table, verb, path, false).Runs? ==> Public(Dispatch(table, verb, path, false).handler)
  {
    if |table| > 0 && !Matches(table[0], verb, path) {
      GuardHolds(table[1..], verb, path);
    }
  }

  /** The authentication routes run without a token. */
  lemma PublicRoutesOpen()
    ensures Dispatch(Table, Post, "/auth/request-otp", false) == Runs(RequestOtp)
    ensures Dispatch(Table, Post, "/auth/register", false) == Runs(Register)
    ensures Dispatch(Table, Post, "/auth/login", false) == Runs(Login)
  {
    assert Table[..|AuthRoutes|] == AuthRoutes;
    PrefixDecides(Table, |AuthRoutes|, 0, Post, "/auth/request-otp", false);
    PrefixDecides(Table, |AuthRoutes|, 1, Post, "/auth/register", false);
    PrefixDecides(Table, |AuthRoutes|, 2, Post, "/auth/login", false);
    AuthRouteOpen(0);
    AuthRouteOpen(1);
    AuthRouteOpen(2);
  }

  /** Authentication route `i` is the first to match its own path. */
  lemma AuthRouteOpen(i: nat)
    requires i < |AuthRoutes|
    ensures Dispatch(AuthRoutes, Post, AuthRoutes[i].path, false) == Runs(AuthRoutes[i].handler)
  {
    assert FirstMatch(AuthRoutes, Post, AuthRoutes[i].path, i);
  }

  /** When route `i`, one of the first `n`, matches, the rest of the table
      is never consulted. */
  lemma {:induction false} PrefixDecides(table: seq<Route>, n: nat, i: nat, verb: Verb, path: string, tokenValid: bool)
    requires i < n <= |table| && Matches(table[i], verb, path)
    ensures Dispatch(table, verb, path, tokenValid) == Dispatch(table[..n], verb, path, tokenValid)
  {
    if !Matches(table[0], verb, path) {
      assert table[..n][1..] == table[1..][..n - 1];
      PrefixDecides(table[1..], n - 1, i - 1, verb, path, tokenValid);
    }
  }

  /** The faucet handler has no route: no request ever runs it. */
  lemma FaucetUnrouted(verb: Verb, path: string, tokenValid: bool)
    ensures Dispatch(Table, verb, path, tokenValid) != Runs(AdminFundWallet)
  {
    assert forall i :: 0 <= i < |Table| ==> Table[i].handler != AdminFundWallet;
  }

  /** The claims the token middleware put in the request context; a missing
      key reads as the empty string. */
  type Claims = map<string, string>

  function Claim(ctx: Claims, key: string): string {
    if key in ctx then ctx[key] else ""
  }

  /** The wallet id of the caller: `wallet_id`, else `walletID`, else
      `wallet`, the first that is non-empty. */
  function ResolveWalletId(ctx: Claims): (w: string)
    ensures w == "" <==> Claim(ctx, "wallet_id") == "" && Claim(ctx, "walletID") == "" && Claim(ctx, "wallet") == ""
    ensures Claim(ctx, "wallet_id") != "" ==> w == Claim(ctx, "wallet_id")
    ensures Claim(ctx, "wallet_id") == "" && Claim(ctx, "walletID") != "" ==> w == Claim(ctx, "walletID")
    ensures w in {Claim(ctx, "wallet_id"), Claim(ctx, "walletID"), Claim(ctx, "wallet")}
  {
    var w := Claim(ctx, "wallet_id");
    if w != "" then w
    else if Claim(ctx, "walletID") != "" then Claim(ctx, "walletID")
    else Claim(ctx, "wallet")
  }

  const NoWalletInToken := "wallet id not found in token context"
  const ZakatFailed := "failed to run zakat"
  const ZakatCreated := "Zakat transaction created as pending. Mine pending transactions to confirm."

  /** The refusal text the handler lists for a wallet with no outputs; the
      zakat run itself words that case "zakat not due". */
  const NoUtxos := "no UTXOs / no balance, zakat not due"

  /** The errors the handler answers with 200 and the error text as the
      message. */
  const SoftErrors: set<string> := {NoUtxos, NoBalance, ComputedZero, NotCovered}

  /** The reply to an error of the zakat run. */
  function Classify(text: string): (r: Reply)
    ensures r.Status() == 200 <==> text in SoftErrors
    ensures text in SoftErrors ==> r == Success(MessageBody(text))
    ensures text !in SoftErrors ==> r == FailureDetails(500, ZakatFailed, text)
  {
    if text == NoUtxos || text == NoBalance || text == ComputedZero || text == NotCovered
    then Success(MessageBody(text))
    else FailureDetails(500, ZakatFailed, text)
  }

  /** How the store answers the run: normally, or with a driver error on the
      output query or on the insertion of the transaction. */
  datatype Driver = Answers | ReadFails(text: string) | InsertFails(text: string)

  /** The created transaction document as the reply echoes it: the
      fields the run set, the time, the inputs naming only the spent
      output's id, and the outputs. */
  function ZakatTxJson(t: Tx): (j: Json)
    ensures j.JObject?
    ensures j.fields.Keys == {"_id", "sender_wallet", "receiver_wallet", "amount", "note", "type", "status",
                              "timestamp", "inputs", "outputs"}
    ensures j.fields["amount"] == JNumber(t.amount) && j.fields["timestamp"] == JTime(t.timestamp)
    ensures |t.inputs| > 0 ==>
      && j.fields["inputs"].JArray? && |j.fields["inputs"].items| == |t.inputs|
      && forall k :: 0 <= k < |t.inputs| ==> j.fields["inputs"].items[k] == JObject(map["utxo_id" := IdJson(t.inputs[k].utxoId)])
    ensures && j.fields["outputs"].JArray? && |j.fields["outputs"].items| == |t.outputs|
            && forall k :: 0 <= k < |t.outputs| ==> j.fields["outputs"].items[k] == OutputJson(t.outputs[k])
  {
    JObject(map[
      "_id" := JString(t.id),
      "sender_wallet" := JString(t.sender),
      "receiver_wallet" := JString(t.receiver),
      "amount" := JNumber(t.amount),
      "note" := JString(t.note),
      "type" := JString(t.kind),
      "status" := JString(t.status),
      "timestamp" := JTime(t.timestamp),
      "inputs" := SliceJson(seq(|t.inputs|, k requires 0 <= k < |t.inputs| =>
                                  JObject(map["utxo_id" := IdJson(t.inputs[k].utxoId)]))),
      "outputs" := JArray(seq(|t.outputs|, k requires 0 <= k < |t.outputs| => OutputJson(t.outputs[k])))])
  }

  /** `POST /api/zakat/run-self`. `docs` is what the output query returns
      for the resolved wallet. */
  function RunSelfZakatHandler(ctx: Claims, db: Db, docs: seq<RawUtxo>, driver: Driver,
                               newId: string, now: int): (r: Handled)
    ensures ResolveWalletId(ctx) == "" ==> r == Handled(Failure(401, NoWalletInToken), db)
    ensures ResolveWalletId(ctx) != "" && driver.ReadFails? ==> r == Handled(Classify(driver.text), db)
    ensures ResolveWalletId(ctx) != "" && !driver.ReadFails? ==>
      var run := RunZakatForWallet(db, ResolveWalletId(ctx), docs, newId, now);
      && (run.Refused? ==> r == Handled(Classify(run.reason), db))
      && (run.Created? && driver.InsertFails? ==> r == Handled(Classify(driver.text), db))
      && (run.Created? && driver.Answers? ==>
            && r.db == run.db
            && r.reply == CreatedReply(run.tx))
    ensures r.reply.Status() != 200 ==> r.db == db
  {
    var w := ResolveWalletId(ctx);
    if w == "" then Handled(Failure(401, NoWalletInToken), db)
    else if driver.ReadFails? then Handled(Classify(driver.text), db)
    else match RunZakatForWallet(db, w, docs, newId, now)
      case Refused(reason) => Handled(Classify(reason), db)
      case Created(tx, after) =>
        if driver.InsertFails? then Handled(Classify(driver.text), db)
        else Handled(CreatedReply(tx), after)
  }

  /** The reply to a created zakat transaction: the pending message and the
      document as written. */
  function CreatedReply(tx: Tx): (r: Reply)
    ensures r.Success? && r.body.Keys == {"message", "tx"}
    ensures r.body["message"] == JString(ZakatCreated) && r.body["tx"] == ZakatTxJson(tx)
  {
    Success(map["message" := JString(ZakatCreated), "tx" := ZakatTxJson(tx)])
  }

  /** Every refusal of the run is answered with 200 except the one for a
      wallet with no outputs at all, which is answered with 500: its text
      is not the one the handler lists. */
  lemma RefusalReplies(ctx: Claims, db: Db, docs: seq<RawUtxo>, newId: string, now: int)
    requires ResolveWalletId(ctx) != ""
    requires Decide(docs, ResolveWalletId(ctx)).Refuse?
    ensures RunSelfZakatHandler(ctx, db, docs, Answers, newId, now).db == db
    ensures RunSelfZakatHandler(ctx, db, docs, Answers, newId, now).reply.Status() == 200 <==> |docs| > 0
  {
    var d := Decide(docs, ResolveWalletId(ctx));
    assert d.reason != NoUtxos && d.reason != ComputedZero;
  }

  /** Two entries of the handler's list are never produced by the run: the
      "no outputs" text and the "computed as 0" text. */
  lemma DeadSoftErrors(docs: seq<RawUtxo>, w: string)
    ensures Decide(docs, w).Refuse? ==> Decide(docs, w).reason !in {NoUtxos, ComputedZero}
  {
  }

  /** On the service's own store the query finds no outputs, so every caller
      with a wallet id gets the 500 reply whose details say zakat is not due,
      and nothing is written. */
  lemma RunSelfOnStore(ctx: Claims, db: Db, newId: string, now: int)
    requires ResolveWalletId(ctx) != ""
    ensures var w := ResolveWalletId(ctx);
      RunSelfZakatHandler(ctx, db, ZakatQuery(Raws(db.utxos), w), Answers, newId, now)
        == Handled(FailureDetails(500, ZakatFailed, NotDue), db)
  {
    RunOnStoreNeverDue(db, ResolveWalletId(ctx), newId, now);
  }

  const BlockDetailsPrefix := "Block details for ID "

  /** `GET /api/blocks/:id`: a stub that answers 200 with the id in its
      message and reads nothing. */
  function GetBlockByID(id: string): (r: Reply)
    ensures r.Success? && r.body.Keys == {"message"}
    ensures r.body["message"].JString?
    ensures var m := r.body["message"].s;
      |m| == |BlockDetailsPrefix| + |id| && m[..|BlockDetailsPrefix|] == BlockDetailsPrefix && m[|BlockDetailsPrefix|..] == id
  {
    Success(MessageBody(BlockDetailsPrefix + id))
  }

  /** The id can be read back from the message, so distinct ids give
      distinct replies. */
  lemma BlockByIdInjective(a: string, b: string)
    requires a != b
    ensures GetBlockByID(a) != GetBlockByID(b)
  {
    var ma := GetBlockByID(a).body["message"].s;
    assert ma[|BlockDetailsPrefix|..] == a;
  }
}
