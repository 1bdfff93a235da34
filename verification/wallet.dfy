/** The wallet handlers: unspent outputs, balance, profile, beneficiaries,
    and the faucet that mints value into a wallet. */
module Wallet {
  import opened Wrappers
  import opened Ledger
  import opened Http
  import opened Store
  import opened UtxoManager

  /** `GET /api/wallet/utxos`: the documents of the wallet's unspent-output
      cursor that decode; the others are skipped. */
  function GetUtxos(cursor: seq<Row<Utxo>>): (out: seq<Utxo>)
    ensures forall u :: u in out <==> Decoded(u) in cursor
  {
    if |cursor| == 0 then []
    else
      assert forall x :: x in cursor <==> x == cursor[0] || x in cursor[1..];
      (if cursor[0].Decoded? then [cursor[0].value] else []) + GetUtxos(cursor[1..])
  }

  /** On the store's cursor for a wallet, the listed outputs are exactly its
      unspent outputs. */
  lemma GetUtxosOfStore(store: seq<Utxo>, w: string)
    ensures forall u :: u in GetUtxos(AsRows(Unspent(store, w))) <==> u in Unspent(store, w)
  {
    var us := Unspent(store, w);
    forall u
      ensures Decoded(u) in AsRows(us) <==> u in us
    {
      if u in us {
        var i :| 0 <= i < |us| && us[i] == u;
        assert AsRows(us)[i] == Decoded(u);
      }
    }
  }

  /** The balance a wallet is shown is the total of the outputs it is
      listed, when every document decodes. A corrupt document is skipped
      by the listing but fails the balance. */
  lemma BalanceMatchesUtxos(cursor: seq<Row<Utxo>>)
    ensures AllDecoded(cursor) ==> GetBalance(cursor) == Ok(Sum(GetUtxos(cursor)))
    ensures !AllDecoded(cursor) ==> GetBalance(cursor).Err?
  {
    if AllDecoded(cursor) {
      DecodedIsListed(cursor);
    }
  }

  lemma {:induction false} DecodedIsListed(cursor: seq<Row<Utxo>>)
    ensures GetUtxos(cursor) == DecodedValues(cursor)
  {
    if |cursor| > 0 {
      DecodedIsListed(cursor[1..]);
    }
  }

  /** `GET /api/wallet/balance`. */
  function BalanceReply(cursor: seq<Row<Utxo>>): (r: Reply)
    ensures r.Success? <==> AllDecoded(cursor)
    ensures r.Success? ==> r.body == map["balance" := JNumber(Sum(DecodedValues(cursor)))]
    ensures !r.Success? ==> r == Failure(500, "balance error")
  {
    match GetBalance(cursor)
    case Ok(b) => Success(map["balance" := JNumber(b)])
    case Err(_) => Failure(500, "balance error")
  }

  /** `GET /api/wallet`: the owner's details with the balance. An
      unknown wallet is a 404; a balance error is a 500 with no profile. */
  function GetWalletProfile(users: seq<User>, w: string, cursor: seq<Row<Utxo>>): (r: Reply)
    ensures UserByWallet(users, w).None? ==> r == Failure(404, "user not found")
    ensures UserByWallet(users, w).Some? && !AllDecoded(cursor) ==> r == Failure(500, "balance error")
    ensures r.Success? ==>
      && UserByWallet(users, w).Some? && AllDecoded(cursor)
      && var u := users[UserByWallet(users, w).value];
      && r.body.Keys == {"full_name", "email", "cnic", "wallet_id", "beneficiaries", "zakat_deducted", "balance"}
      && r.body["full_name"] == JString(u.fullName)
      && r.body["email"] == JString(u.email)
      && r.body["cnic"] == JString(u.cnic)
      && r.body["wallet_id"] == JString(u.walletId)
      && r.body["beneficiaries"] == JArray(Strings(u.beneficiaries))
      && r.body["zakat_deducted"] == JNumber(u.zakatDeducted)
      && r.body["balance"] == JNumber(Sum(DecodedValues(cursor)))
  {
    match UserByWallet(users, w)
    case None => Failure(404, "user not found")
    case Some(i) =>
      match GetBalance(cursor)
      case Err(_) => Failure(500, "balance error")
      case Ok(b) =>
        var u := users[i];
        Success(map[
          "full_name" := JString(u.fullName),
          "email" := JString(u.email),
          "cnic" := JString(u.cnic),
          "wallet_id" := JString(u.walletId),
          "beneficiaries" := JArray(Strings(u.beneficiaries)),
          "zakat_deducted" := JNumber(u.zakatDeducted),
          "balance" := JNumber(b)])
  }

  /** `POST /api/wallet/beneficiaries`: the wallet owner's list is replaced
      wholesale by the requested one. A wallet with no owner is not an
      error: nothing changes and the reply is the same. */
  function UpdateBeneficiaries(db: Db, w: string, body: Body<seq<string>>): (r: Handled)
    ensures body.Malformed? ==> r == Handled(BindFailure, db)
    ensures body.Parsed? ==> r.reply == Success(MessageBody("beneficiaries updated"))
    ensures r.db == db.(users := r.db.users) && |r.db.users| == |db.users|
    ensures body.Parsed? ==> forall i :: 0 <= i < |db.users| ==>
      r.db.users[i] == (if Some(i) == UserByWallet(db.users, w)
                        then db.users[i].(beneficiaries := body.value)
                        else db.users[i])
  {
    match body
    case Malformed => Handled(BindFailure, db)
    case Parsed(list) =>
      Handled(Success(MessageBody("beneficiaries updated")),
              db.(users := UpdateUserOfWallet(db.users, w, (u: User) => u.(beneficiaries := list))))
  }

  const FaucetNote := "Admin faucet funding"

  datatype FundRequest = FundRequest(walletId: string, amount: real)

  /** The faucet meant for `POST /api/admin/fund` (a route that is never
      registered): a faucet output of the requested amount for an
      existing wallet, and a confirmed faucet transaction with the same id.
      `oid` is the hex of the fresh ObjectID the id is built from. */
  function AdminFundWallet(db: Db, body: Body<FundRequest>, oid: string, now: int): (r: Handled)
    ensures body.Malformed? || body.value.walletId == "" || !(body.value.amount > 0.0) ==>
      r == Handled(BindFailure, db)
    ensures body.Parsed? && body.value.walletId != "" && body.value.amount > 0.0 && !WalletExists(db.wallets, body.value.walletId) ==>
      r == Handled(Failure(400, "wallet does not exist"), db)
    ensures r.reply.Success? ==>
      var q := body.value;
      var id := "faucet-" + oid;
      && r.db == db.(utxos := InsertUtxo(db.utxos, Utxo(NoObjectId, id, 0, q.walletId, q.amount, false)),
                     txs := db.txs + [BareTx(FaucetSender, q.walletId, q.amount, FaucetNote, now, KindFaucet, StatusConfirmed).(id := id)])
      && r.reply.body == map["message" := JString("wallet funded via faucet"),
                             "wallet_id" := JString(q.walletId),
                             "amount" := JNumber(q.amount)]
  {
    match body
    case Malformed => Handled(BindFailure, db)
    case Parsed(q) =>
      if q.walletId == "" || !(q.amount > 0.0) then Handled(BindFailure, db)
      else if !WalletExists(db.wallets, q.walletId) then Handled(Failure(400, "wallet does not exist"), db)
      else
        var id := "faucet-" + oid;
        Handled(
          Success(map["message" := JString("wallet funded via faucet"),
                      "wallet_id" := JString(q.walletId),
                      "amount" := JNumber(q.amount)]),
          db.(utxos := InsertUtxo(db.utxos, Utxo(NoObjectId, id, 0, q.walletId, q.amount, false)),
              txs := db.txs + [BareTx(FaucetSender, q.walletId, q.amount, FaucetNote, now, KindFaucet, StatusConfirmed).(id := id)]))
  }

  /** Funding mints value: the funded wallet's balance and the unspent total
      both rise by the amount, every other balance is unchanged, and the
      output and the transaction share one id. */
  lemma FundingMints(db: Db, body: Body<FundRequest>, oid: string, now: int, w: string)
    requires AdminFundWallet(db, body, oid, now).reply.Success?
    ensures var after := AdminFundWallet(db, body, oid, now).db;
      && Balance(after.utxos, w) == Balance(db.utxos, w) + (if w == body.value.walletId then body.value.amount else 0.0)
      && UnspentTotal(after.utxos) == UnspentTotal(db.utxos) + body.value.amount
      && after.utxos[|db.utxos|].txId == after.txs[|db.txs|].id
  {
    var q := body.value;
    var u := Utxo(NoObjectId, "faucet-" + oid, 0, q.walletId, q.amount, false);
    BalanceInsert(db.utxos, u, w);
    UnspentTotalAppend(db.utxos, u.(id := ObjectId(|db.utxos|)));
  }
}
