/** The transaction handlers: a wallet's history and the creation of a
    signed transfer that waits in the pending pool for the miner. */
module Transactions {
  import opened Wrappers
  import opened Ledger
  import opened Http
  import opened Store
  import opened UtxoManager

  const InvalidReceiver := "invalid receiver wallet"
  const InsufficientBalance := "insufficient balance"
  const CreatedMessage := "transaction created (pending mining)"

  /** `GET /api/tx/history`: the stored transactions the wallet sent or
      received, in store order. */
  function GetTxHistory(txs: seq<Tx>, w: string): (r: seq<Tx>)
    ensures forall t :: t in r <==> t in txs && (t.sender == w || t.receiver == w)
    ensures multiset(r) <= multiset(txs)
  {
    Filter(txs, (t: Tx) => t.sender == w || t.receiver == w)
  }

  /** The request body after binding: a missing field takes its zero
      value. */
  datatype CreateTxRequest = CreateTxRequest(receiver: string, amount: real, note: string)

  /** The binder's checks: a receiver is required and the amount must be
      positive. */
  predicate ValidCreateTx(q: CreateTxRequest) {
    q.receiver != "" && q.amount > 0.0
  }

  /** What signing the payload with the sender's stored key yields: a
      signature and whether it verifies against the sender's public key, or
      the step at which it failed. */
  datatype Signing = Signed(signature: string, verifies: bool) | DecryptFails(detail: string) | KeyInvalid(detail: string) | SignFails

  /** One input per chosen output, naming it by id and index, in order. */
  function InputsOf(chosen: seq<Utxo>): (r: seq<TxInput>)
    ensures |r| == |chosen|
    ensures forall i :: 0 <= i < |chosen| ==> r[i] == TxInput(chosen[i].id, chosen[i].index)
  {
    seq(|chosen|, i requires 0 <= i < |chosen| => TxInput(chosen[i].id, chosen[i].index))
  }

  /** The receiver's output for the amount, then the sender's change output
      when there is change. */
  function OutputsOf(sender: string, receiver: string, amount: real, change: real): (r: seq<TxOutput>)
    ensures OutputSum(r) == amount + (if change > 0.0 then change else 0.0)
    ensures |r| >= 1 && r[0] == TxOutput(receiver, amount)
    ensures |r| == 2 <==> change > 0.0
    ensures |r| == 1 || r[1] == TxOutput(sender, change)
  {
    var first := [TxOutput(receiver, amount)];
    if change > 0.0 then
      var both := first + [TxOutput(sender, change)];
      assert both[1..] == [TxOutput(sender, change)];
      assert OutputSum(both[1..]) == change + OutputSum([]);
      both
    else
      assert OutputSum(first) == amount + OutputSum([]);
      first
  }

  /** The pending transfer as it is stored: one input per chosen output,
      the receiver's output, and the sender's change output when the chosen
      outputs exceed the amount. */
  function PendingTransfer(id: string, wallet: string, q: CreateTxRequest, now: int, pubKey: string,
                           signature: string, chosen: seq<Utxo>): Tx
  {
    Tx(id, wallet, q.receiver, q.amount, q.note, now, pubKey, signature,
       InputsOf(chosen), OutputsOf(wallet, q.receiver, q.amount, Sum(chosen) - q.amount),
       KindNormal, StatusPending)
  }

  /** The steps after a successful selection: find the sender, sign, check
      the signature, and queue the transfer in the pending pool. `inserted`
      says whether the store accepts the pending document. */
  function SignAndQueue(db: Db, wallet: string, q: CreateTxRequest, chosen: seq<Utxo>,
                        signing: Signing, now: int, newId: string, inserted: bool): (r: Handled)
    ensures r.reply.Status() != 200 ==> r.db == db
    ensures r.reply.Status() == 200 <==> UserByWallet(db.users, wallet).Some? && signing.Signed? && signing.verifies && inserted
    ensures UserByWallet(db.users, wallet).None? ==> r.reply == Failure(500, "user not found")
    ensures UserByWallet(db.users, wallet).Some? && signing.Signed? && signing.verifies && !inserted ==>
      r == Handled(Failure(500, DbError), db)
    ensures r.reply.Status() == 200 ==>
      && r.reply == Success(MessageBody(CreatedMessage))
      && r.db == db.(pending := db.pending + [PendingTransfer(newId, wallet, q, now,
                       db.users[UserByWallet(db.users, wallet).value].publicKey, signing.signature, chosen)])
  {
    match UserByWallet(db.users, wallet)
    case None => Handled(Failure(500, "user not found"), db)
    case Some(i) =>
      match signing
      case DecryptFails(detail) => Handled(Failure(500, "decrypt key failed: " + detail), db)
      case KeyInvalid(detail) => Handled(Failure(500, "invalid private key: " + detail), db)
      case SignFails => Handled(Failure(500, "sign failed"), db)
      case Signed(sig, verifies) =>
        if !verifies then Handled(Failure(400, "signature invalid"), db)
        else if !inserted then Handled(Failure(500, DbError), db)
        else
          Handled(Success(MessageBody(CreatedMessage)),
                  db.(pending := db.pending + [PendingTransfer(newId, wallet, q, now, db.users[i].publicKey, sig, chosen)]))
  }

  /** The outputs that pay for a transfer: the shortest prefix of the
      sender's unspent outputs, in store order, that covers the amount. */
  function Chosen(store: seq<Utxo>, wallet: string, amount: real): seq<Utxo> {
    var avail := Unspent(store, wallet);
    avail[..GreedyCover(avail, amount)]
  }

  /** What the selection walks to over the query's cursor: the shortest
      prefix that covers the amount among the outputs in front of the first
      document that does not decode. */
  function ChosenFrom(cursor: seq<Row<Utxo>>, amount: real): seq<Utxo> {
    var vs := CleanValues(cursor);
    vs[..GreedyCover(vs, amount)]
  }

  /** `POST /api/tx`. `found` is the selection query's cursor over the
      sender's unspent outputs, or `None` when that query fails. The
      signing outcome, the clock, the id the store gives the new pending
      document and whether its insertion succeeds are inputs. */
  method CreateTransaction(db: Db, wallet: string, body: Body<CreateTxRequest>, found: Option<seq<Row<Utxo>>>,
                           signing: Signing, now: int, newId: string, inserted: bool)
    returns (r: Handled)
    ensures body.Malformed? || !ValidCreateTx(body.value) ==> r == Handled(BindFailure, db)
    ensures body.Parsed? && ValidCreateTx(body.value) && !WalletExists(db.wallets, body.value.receiver) ==>
      r == Handled(Failure(400, InvalidReceiver), db)
    ensures body.Parsed? && ValidCreateTx(body.value) && WalletExists(db.wallets, body.value.receiver) && found.None? ==>
      r == Handled(Failure(400, InsufficientBalance), db)
    ensures body.Parsed? && ValidCreateTx(body.value) && WalletExists(db.wallets, body.value.receiver) && found.Some? ==>
      var chosen := ChosenFrom(found.value, body.value.amount);
      var covered := |chosen| > 0 && Sum(chosen) >= body.value.amount;
      && (!covered ==> r == Handled(Failure(400, InsufficientBalance), db))
      && (covered ==> r == SignAndQueue(db, wallet, body.value, chosen, signing, now, newId, inserted))
  {
    if body.Malformed? || !ValidCreateTx(body.value) {
      return Handled(BindFailure, db);
    }
    var q := body.value;
    if !WalletExists(db.wallets, q.receiver) {
      return Handled(Failure(400, InvalidReceiver), db);
    }
    if found.None? {
      return Handled(Failure(400, InsufficientBalance), db);
    }
    var selected := SelectUtxosForAmount(found.value, q.amount);
    SelectionIsGreedy(found.value, q.amount, selected);
    if selected.Err? {
      return Handled(Failure(400, InsufficientBalance), db);
    }
    r := SignAndQueue(db, wallet, q, selected.value.chosen, signing, now, newId, inserted);
  }

  /** The manager's selection succeeds exactly when the greedy prefix of
      the outputs in front of the first undecodable document covers the
      amount, and then it is that prefix. */
  lemma SelectionIsGreedy(cursor: seq<Row<Utxo>>, amount: real, selected: Result<Selection>)
    requires selected.Ok? ==>
      var ch := selected.value.chosen;
      && 1 <= |ch| <= |cursor|
      && (forall k :: 0 <= k < |ch| ==> cursor[k] == Decoded(ch[k]))
      && Sum(ch) >= amount
      && (forall k :: 1 <= k < |ch| ==> Sum(ch[..k]) < amount)
    requires selected.Err? ==>
      var vs := CleanValues(cursor);
      forall k :: 1 <= k <= |vs| ==> Sum(vs[..k]) < amount
    ensures var chosen := ChosenFrom(cursor, amount);
      selected.Ok? <==> |chosen| > 0 && Sum(chosen) >= amount
    ensures selected.Ok? ==> selected.value.chosen == ChosenFrom(cursor, amount)
  {
    var vs := CleanValues(cursor);
    GreedyCoverMinimal(vs, amount);
    if selected.Ok? {
      var ch := selected.value.chosen;
      assert |ch| <= FirstCorrupt(cursor);
      assert ch == vs[..|ch|];
      assert forall j :: 1 <= j < |ch| ==> ch[..j] == vs[..j];
      GreedyCoverUnique(vs, amount, |ch|);
    } else if |vs| > 0 {
      assert vs[..|vs|] == vs;
    }
  }

  /** On the service's store every output decodes, so the selection is the
      greedy prefix of the sender's unspent outputs. */
  lemma SelectionOnStore(store: seq<Utxo>, wallet: string, amount: real)
    ensures ChosenFrom(AsRows(Unspent(store, wallet)), amount) == Chosen(store, wallet, amount)
  {
    var avail := Unspent(store, wallet);
    DecodedValuesAsRows(avail);
    assert CleanValues(AsRows(avail)) == avail;
  }

  /** An undecodable output in front of every decodable one makes the
      selection fail, whatever the sender owns behind it: the reply is
      "insufficient balance". */
  lemma CorruptOutputRefuses(rows: seq<Row<Utxo>>, amount: real)
    ensures ChosenFrom([Corrupt] + rows, amount) == []
  {
  }
}
