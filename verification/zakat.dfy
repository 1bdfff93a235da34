/** Zakat: 2.5% of a wallet's balance sent to the zakat pool. Two code
    paths create it: the per-wallet run behind `POST /api/zakat/run-self`,
    which reads raw output documents and records the deduction among the
    stored transactions, and the scheduler, which computes every wallet's
    balance and queues the deduction in the pending pool. */
module Zakat {
  import opened Wrappers
  import opened Ledger
  import opened Store

  const ZakatPool := "ZAKAT_POOL"
  /** Zakat on a balance: 2.5% of it. */
  function ZakatOf(balance: real): (z: real)
    ensures balance > 0.0 ==> 0.0 < z < balance
  {
    0.025 * balance
  }
  const ZakatNote := "Monthly zakat deduction (2.5%)"

  const NotDue := "zakat not due"
  const NoBalance := "balance <= 0, zakat not due"
  const ComputedZero := "zakat computed as 0, nothing to do"
  const NotCovered := "not enough UTXOs to cover zakat"

  /** An output document read without a schema: its `_id`, its owner, its
      `amount` when that is a floating-point number, and its `spent` field
      when it has one. */
  datatype RawUtxo = RawUtxo(id: DocId, owner: string, amount: Option<real>, spent: Option<bool>)

  /** The raw form of an output the service stored. It records spending in
      `is_spent`; no stored output has a `spent` field. */
  function Raw(u: Utxo): RawUtxo {
    RawUtxo(u.id, u.owner, Some(u.amount), None)
  }

  function Raws(store: seq<Utxo>): (r: seq<RawUtxo>)
    ensures |r| == |store|
    ensures forall i :: 0 <= i < |store| ==> r[i] == Raw(store[i])
  {
    seq(|store|, i requires 0 <= i < |store| => Raw(store[i]))
  }

  /** The documents the run reads: owned by the wallet and with `spent`
      equal to false. */
  function ZakatQuery(docs: seq<RawUtxo>, w: string): (r: seq<RawUtxo>)
    ensures forall d :: d in r <==> d in docs && d.owner == w && d.spent == Some(false)
  {
    Filter(docs, (d: RawUtxo) => d.owner == w && d.spent == Some(false))
  }

  /** On the documents the service writes, the query matches nothing. */
  lemma {:induction false} QueryFindsNothing(store: seq<Utxo>, w: string)
    ensures ZakatQuery(Raws(store), w) == []
  {
    if |store| > 0 {
      assert Raws(store)[1..] == Raws(store[1..]);
      QueryFindsNothing(store[1..], w);
    }
  }

  /** The balance the run computes: the sum of the amounts that are
      floating-point numbers; other amounts count for nothing. */
  function RawBalance(docs: seq<RawUtxo>): real {
    if |docs| == 0 then 0.0 else docs[0].amount.GetOr(0.0) + RawBalance(docs[1..])
  }

  /** The documents the run may spend (those whose `_id` is an ObjectID),
      as outputs of the wallet in query order. */
  function Spendable(docs: seq<RawUtxo>, w: string): (us: seq<Utxo>)
    ensures forall i :: 0 <= i < |us| ==> us[i].id.ObjectId?
  {
    if |docs| == 0 then []
    else
      var d := docs[0];
      (if d.id.ObjectId? then [Utxo(d.id, "", 0, w, d.amount.GetOr(0.0), false)] else [])
        + Spendable(docs[1..], w)
  }

  /** When every document has an ObjectID the spendable outputs are worth
      the whole balance. */
  predicate AllObjectIds(docs: seq<RawUtxo>) {
    forall i :: 0 <= i < |docs| ==> docs[i].id.ObjectId?
  }

  lemma {:induction false} SpendableAll(docs: seq<RawUtxo>, w: string)
    requires AllObjectIds(docs)
    ensures Sum(Spendable(docs, w)) == RawBalance(docs)
  {
    if |docs| > 0 {
      SpendableAll(docs[1..], w);
      var d := docs[0];
      var u := Utxo(d.id, "", 0, w, d.amount.GetOr(0.0), false);
      assert Spendable(docs, w) == [u] + Spendable(docs[1..], w);
      assert ([u] + Spendable(docs[1..], w))[1..] == Spendable(docs[1..], w);
    }
  }

  /** The zakat transaction as the run builds it. `id` is the id the store
      assigns on insertion. */
  function ZakatTx(id: string, w: string, zakat: real, inputs: seq<Utxo>, inputSum: real, now: int): (t: Tx)
    ensures t.sender == w && t.receiver == ZakatPool && t.amount == zakat
    ensures t.kind == KindZakat && t.status == StatusPending
    ensures |t.inputs| == |inputs|
    ensures |t.outputs| >= 1 && t.outputs[0] == TxOutput(ZakatPool, zakat)
    ensures |t.outputs| == 2 <==> inputSum - zakat > 0.0
    ensures |t.outputs| == 2 ==> t.outputs[1] == TxOutput(w, inputSum - zakat)
    ensures OutputSum(t.outputs) == zakat + (if inputSum - zakat > 0.0 then inputSum - zakat else 0.0)
  {
    var change := inputSum - zakat;
    var first := [TxOutput(ZakatPool, zakat)];
    var outputs := if change > 0.0 then first + [TxOutput(w, change)] else first;
    assert OutputSum(first) == zakat + OutputSum([]);
    assert change > 0.0 ==> outputs[1..] == [TxOutput(w, change)];
    assert change > 0.0 ==> OutputSum(outputs[1..]) == change + OutputSum([]);
    Tx(id, w, ZakatPool, zakat, ZakatNote, now, "", "",
       seq(|inputs|, i requires 0 <= i < |inputs| => TxInput(inputs[i].id, 0)),
       outputs, KindZakat, StatusPending)
  }

  /** What the run decides from the documents alone: refuse, with the
      reason, or deduct `zakat` by spending `used`. */
  datatype Decision = Refuse(reason: string) | Deduct(zakat: real, used: seq<Utxo>)

  function Decide(docs: seq<RawUtxo>, w: string): (d: Decision)
    ensures |docs| == 0 <==> d == Refuse(NotDue)
    ensures |docs| > 0 && RawBalance(docs) <= 0.0 <==> d == Refuse(NoBalance)
    ensures d != Refuse(ComputedZero)
    ensures d.Refuse? ==> d.reason in {NotDue, NoBalance, NotCovered}
    ensures d.Deduct? ==>
      var us := Spendable(docs, w);
      && RawBalance(docs) > 0.0
      && d.zakat == ZakatOf(RawBalance(docs)) && d.zakat > 0.0
      && d.used == us[..GreedyCover(us, d.zakat)]
      && Sum(d.used) >= d.zakat
    ensures d == Refuse(NotCovered) <==>
      var us := Spendable(docs, w);
      var zakat := ZakatOf(RawBalance(docs));
      |docs| > 0 && RawBalance(docs) > 0.0 && Sum(us[..GreedyCover(us, zakat)]) < zakat
    ensures d == Refuse(NotCovered) ==> Sum(Spendable(docs, w)) < ZakatOf(RawBalance(docs))
  {
    if |docs| == 0 then Refuse(NotDue)
    else
      var balance := RawBalance(docs);
      if balance <= 0.0 then Refuse(NoBalance)
      else
        var zakat := ZakatOf(balance);
        if zakat <= 0.0 then Refuse(ComputedZero)
        else
          var us := Spendable(docs, w);
          var used := us[..GreedyCover(us, zakat)];
          if Sum(used) < zakat then
            GreedyCoverMinimal(us, zakat);
            assert |us| > 0 ==> us[..|us|] == us;
            Refuse(NotCovered)
          else Deduct(zakat, used)
  }

  /** No document carries a negative amount. */
  predicate NoNegativeAmounts(docs: seq<RawUtxo>) {
    forall i :: 0 <= i < |docs| ==> docs[i].amount.GetOr(0.0) >= 0.0
  }

  lemma {:induction false} SpendableNonNegative(docs: seq<RawUtxo>, w: string)
    requires NoNegativeAmounts(docs)
    ensures NonNegative(Spendable(docs, w))
  {
    if |docs| > 0 {
      assert NoNegativeAmounts(docs[1..]) by {
        assert forall i :: 1 <= i < |docs| ==> docs[1..][i - 1] == docs[i];
      }
      SpendableNonNegative(docs[1..], w);
    }
  }

  /** With no negative amounts, the run refuses for want of inputs exactly
      when the outputs it may spend are worth less than the zakat, whatever
      the `_id`s of the other documents. */
  lemma NotCoveredExactly(docs: seq<RawUtxo>, w: string)
    requires NoNegativeAmounts(docs)
    ensures Decide(docs, w) == Refuse(NotCovered) <==>
      |docs| > 0 && RawBalance(docs) > 0.0 && Sum(Spendable(docs, w)) < ZakatOf(RawBalance(docs))
  {
    SpendableNonNegative(docs, w);
    GreedyCoverFunded(Spendable(docs, w), ZakatOf(RawBalance(docs)));
  }

  /** Outcome of a run: the created transaction and the store after it, or
      the reason for refusing. */
  datatype Run = Created(tx: Tx, db: Db) | Refused(reason: string)

  /** The run for one wallet over the documents its query returned: the
      transaction is recorded with the stored transactions, and the owner's
      running total of deducted zakat grows by the amount. */
  function RunZakatForWallet(db: Db, w: string, docs: seq<RawUtxo>, newId: string, now: int): (r: Run)
    ensures r.Refused? <==> Decide(docs, w).Refuse?
    ensures r.Refused? ==> r.reason == Decide(docs, w).reason
    ensures r.Created? ==>
      var d := Decide(docs, w);
      && r.tx == ZakatTx(newId, w, d.zakat, d.used, Sum(d.used), now)
      && r.db == db.(txs := db.txs + [r.tx],
                     users := UpdateUserOfWallet(db.users, w, (u: User) => u.(zakatDeducted := u.zakatDeducted + d.zakat)))
  {
    match Decide(docs, w)
    case Refuse(reason) => Refused(reason)
    case Deduct(zakat, used) =>
      var tx := ZakatTx(newId, w, zakat, used, Sum(used), now);
      Created(tx, db.(txs := db.txs + [tx],
                      users := UpdateUserOfWallet(db.users, w, (u: User) => u.(zakatDeducted := u.zakatDeducted + zakat))))
  }

  /** The spent inputs are the shortest prefix of the spendable outputs that
      covers the zakat: every shorter one falls short. */
  lemma InputsMinimal(docs: seq<RawUtxo>, w: string)
    requires Decide(docs, w).Deduct?
    ensures var d := Decide(docs, w);
      var us := Spendable(docs, w);
      forall k :: 1 <= k < |d.used| ==> Sum(us[..k]) < d.zakat
  {
    var d := Decide(docs, w);
    GreedyCoverMinimal(Spendable(docs, w), d.zakat);
  }

  /** When every document has an ObjectID, a positive balance always covers
      its own zakat: the run never refuses for want of inputs. */
  lemma CoverAlwaysFound(docs: seq<RawUtxo>, w: string)
    requires AllObjectIds(docs)
    requires RawBalance(docs) > 0.0
    ensures Decide(docs, w).Deduct?
  {
    var balance := RawBalance(docs);
    var zakat := ZakatOf(balance);
    var us := Spendable(docs, w);
    var used := us[..GreedyCover(us, zakat)];
    assert Sum(used) >= zakat by {
      SpendableAll(docs, w);
      Covered(us, zakat, balance);
    }
    assert |docs| != 0;
    assert Decide(docs, w) == Deduct(zakat, used);
  }

  /** The greedy prefix of outputs worth `total` covers any target of at
      most `total`. */
  lemma Covered(us: seq<Utxo>, target: real, total: real)
    requires Sum(us) == total && target <= total
    ensures Sum(us[..GreedyCover(us, target)]) >= target
  {
    GreedyCoverMinimal(us, target);
    assert us[..|us|] == us;
  }

  /** Run over what the query returns on the service's own store, the
      per-wallet zakat is never due. */
  lemma RunOnStoreNeverDue(db: Db, w: string, newId: string, now: int)
    ensures RunZakatForWallet(db, w, ZakatQuery(Raws(db.utxos), w), newId, now) == Refused(NotDue)
  {
    QueryFindsNothing(db.utxos, w);
  }
}

/** The scheduled zakat run over every wallet. */
module Scheduler {
  import opened Wrappers
  import opened Ledger
  import opened Store
  import opened UtxoManager
  import Zakat

  const SchedulerNote := "Monthly Zakat"

  /** The pending deduction queued for a wallet. `id` is the id the store
      assigns to the inserted document. */
  function DeductionTx(id: string, w: string, zakatWallet: string, zakat: real, now: int): Tx {
    BareTx(w, zakatWallet, zakat, SchedulerNote, now, KindZakat, StatusPending).(id := id)
  }

  /** A wallet owes zakat when its document decodes and its balance is read
      without error and is positive; it then owes 2.5% of it. */
  function Owed(row: Row<WalletDoc>, cursorOf: string -> seq<Row<Utxo>>): Option<real> {
    if row.Corrupt? then None
    else match GetBalance(cursorOf(row.value.walletId))
      case Err(_) => None
      case Ok(b) => if b <= 0.0 || Zakat.ZakatOf(b) <= 0.0 then None else Some(Zakat.ZakatOf(b))
  }

  /** One wallet's turn: when it owes zakat, a pending deduction is queued
      and its owner's running total of deducted zakat grows by the amount.
      `idFor(n)` is the id the store gives the document inserted when the
      pool holds `n` transactions. */
  function Step(db: Db, row: Row<WalletDoc>, cursorOf: string -> seq<Row<Utxo>>,
                zakatWallet: string, now: int, idFor: nat -> string): (next: Db)
    ensures next == db.(pending := next.pending, users := next.users)
    ensures |next.users| == |db.users|
    ensures Owed(row, cursorOf).None? ==> next == db
    ensures Owed(row, cursorOf).Some? ==>
      next.pending == db.pending + [DeductionTx(idFor(|db.pending|), row.value.walletId, zakatWallet, Owed(row, cursorOf).value, now)]
    ensures Owed(row, cursorOf).Some? ==> forall i :: 0 <= i < |db.users| ==>
      next.users[i] == (if UserByWallet(db.users, row.value.walletId) == Some(i)
                        then db.users[i].(zakatDeducted := db.users[i].zakatDeducted + Owed(row, cursorOf).value)
                        else db.users[i])
  {
    match Owed(row, cursorOf)
    case None => db
    case Some(z) =>
      var w := row.value.walletId;
      // Both writes discard their errors, as the scheduler does.
      db.(pending := db.pending + [DeductionTx(idFor(|db.pending|), w, zakatWallet, z, now)],
          users := UpdateUserOfWallet(db.users, w, (u: User) => u.(zakatDeducted := u.zakatDeducted + z)))
  }

  /** The scheduler's fold over the wallet cursor. */
  function ZakatFold(db: Db, rows: seq<Row<WalletDoc>>, cursorOf: string -> seq<Row<Utxo>>,
                     zakatWallet: string, now: int, idFor: nat -> string): Db
    decreases |rows|
  {
    if |rows| == 0 then db
    else ZakatFold(Step(db, rows[0], cursorOf, zakatWallet, now, idFor), rows[1..], cursorOf, zakatWallet, now, idFor)
  }

  /** The deductions owed, wallet by wallet, skipping those that owe
      nothing. */
  function Dues(rows: seq<Row<WalletDoc>>, cursorOf: string -> seq<Row<Utxo>>): seq<(string, real)>
  {
    if |rows| == 0 then []
    else
      (match Owed(rows[0], cursorOf)
       case None => []
       case Some(z) => [(rows[0].value.walletId, z)])
      + Dues(rows[1..], cursorOf)
  }

  /** `RunZakatNow`: `None` stands for a failed read of the wallets, the
      only error the run reports. */
  function RunZakatNow(db: Db, wallets: Option<seq<Row<WalletDoc>>>, cursorOf: string -> seq<Row<Utxo>>,
                       zakatWallet: string, now: int, idFor: nat -> string): (r: (Option<Error>, Db))
    ensures wallets.None? <==> r.0.Some?
    ensures wallets.None? ==> r.1 == db
  {
    match wallets
    case None => (Some(Fault), db)
    case Some(rows) => (None, ZakatFold(db, rows, cursorOf, zakatWallet, now, idFor))
  }

  /** `after` is `pool` followed by one pending deduction per entry of
      `dues`, in order, each with the id the store gives it at that point. */
  predicate QueuedInOrder(pool: seq<Tx>, after: seq<Tx>, dues: seq<(string, real)>,
                          zakatWallet: string, now: int, idFor: nat -> string)
  {
    && |after| == |pool| + |dues|
    && after[..|pool|] == pool
    && forall k :: 0 <= k < |dues| ==>
         after[|pool| + k] == DeductionTx(idFor(|pool| + k), dues[k].0, zakatWallet, dues[k].1, now)
  }

  /** The pool gains one pending deduction per wallet that owes zakat, in
      cursor order, for exactly 2.5% of its balance to the configured zakat
      wallet. */
  lemma {:induction false} FoldQueuesDues(db: Db, rows: seq<Row<WalletDoc>>, cursorOf: string -> seq<Row<Utxo>>,
                                          zakatWallet: string, now: int, idFor: nat -> string)
    ensures QueuedInOrder(db.pending, ZakatFold(db, rows, cursorOf, zakatWallet, now, idFor).pending,
                          Dues(rows, cursorOf), zakatWallet, now, idFor)
    decreases |rows|
  {
    if |rows| == 0 {
      QueuedNothing(db.pending, zakatWallet, now, idFor);
    } else {
      var o := Owed(rows[0], cursorOf);
      var next := Step(db, rows[0], cursorOf, zakatWallet, now, idFor);
      FoldQueuesDues(next, rows[1..], cursorOf, zakatWallet, now, idFor);
      var after := ZakatFold(next, rows[1..], cursorOf, zakatWallet, now, idFor);
      var rest := Dues(rows[1..], cursorOf);
      if o.Some? {
        var d := (rows[0].value.walletId, o.value);
        assert Dues(rows, cursorOf) == [d] + rest;
        QueuedCons(db.pending, after.pending, d, rest, zakatWallet, now, idFor);
      } else {
        assert Dues(rows, cursorOf) == rest;
      }
    }
  }

  lemma QueuedNothing(pool: seq<Tx>, zakatWallet: string, now: int, idFor: nat -> string)
    ensures QueuedInOrder(pool, pool, [], zakatWallet, now, idFor)
  {
    assert pool[..|pool|] == pool;
  }

  /** Queuing the first due and then the others is queuing them all. */
  lemma QueuedCons(pool: seq<Tx>, after: seq<Tx>, d: (string, real), rest: seq<(string, real)>,
                   zakatWallet: string, now: int, idFor: nat -> string)
    requires QueuedInOrder(pool + [DeductionTx(idFor(|pool|), d.0, zakatWallet, d.1, now)], after, rest, zakatWallet, now, idFor)
    ensures QueuedInOrder(pool, after, [d] + rest, zakatWallet, now, idFor)
  {
    var grown := pool + [DeductionTx(idFor(|pool|), d.0, zakatWallet, d.1, now)];
    assert after[..|pool|] == after[..|grown|][..|pool|];
    assert after[|pool|] == after[..|grown|][|pool|];
    var dues := [d] + rest;
    forall k | 0 <= k < |dues|
      ensures after[|pool| + k] == DeductionTx(idFor(|pool| + k), dues[k].0, zakatWallet, dues[k].1, now)
    {
      if k > 0 {
        assert dues[k] == rest[k - 1];
        assert after[|pool| + k] == after[|grown| + (k - 1)];
      }
    }
  }

  /** The run touches only the pending pool and the users, and of the users
      only their running totals of deducted zakat. */
  lemma {:induction false} FoldFrame(db: Db, rows: seq<Row<WalletDoc>>, cursorOf: string -> seq<Row<Utxo>>,
                                     zakatWallet: string, now: int, idFor: nat -> string)
    ensures var after := ZakatFold(db, rows, cursorOf, zakatWallet, now, idFor);
      && after == db.(pending := after.pending, users := after.users)
      && |after.users| == |db.users|
      && (forall i :: 0 <= i < |db.users| ==>
            after.users[i] == db.users[i].(zakatDeducted := after.users[i].zakatDeducted))
    decreases |rows|
  {
    if |rows| > 0 {
      var next := Step(db, rows[0], cursorOf, zakatWallet, now, idFor);
      FoldFrame(next, rows[1..], cursorOf, zakatWallet, now, idFor);
      forall i | 0 <= i < |db.users|
        ensures next.users[i] == db.users[i].(zakatDeducted := next.users[i].zakatDeducted)
      {
        var o := Owed(rows[0], cursorOf);
        if o.Some? {
          var w := rows[0].value.walletId;
          match UserByWallet(db.users, w)
          case None =>
          case Some(j) =>
        }
      }
    }
  }

  /** The zakat the dues charge to user `i`: the sum of the dues of the
      wallets whose first user is `i`. */
  function DueTo(users: seq<User>, dues: seq<(string, real)>, i: nat): real
    decreases |dues|
  {
    if |dues| == 0 then 0.0
    else (if UserByWallet(users, dues[0].0) == Some(i) then dues[0].1 else 0.0) + DueTo(users, dues[1..], i)
  }

  /** Two user lists that agree on every wallet id. */
  predicate SameWallets(a: seq<User>, b: seq<User>) {
    |a| == |b| && forall i :: 0 <= i < |a| ==> a[i].walletId == b[i].walletId
  }

  lemma {:induction false} UserByWalletSame(a: seq<User>, b: seq<User>, w: string)
    requires SameWallets(a, b)
    ensures UserByWallet(a, w) == UserByWallet(b, w)
  {
    if UserByWallet(a, w).None? {
      assert forall j :: 0 <= j < |b| ==> b[j].walletId == a[j].walletId;
    } else {
      var k := UserByWallet(a, w).value;
      assert b[k].walletId == w;
      assert forall j :: 0 <= j < k ==> b[j].walletId == a[j].walletId;
    }
  }

  lemma {:induction false} DueToSame(a: seq<User>, b: seq<User>, dues: seq<(string, real)>, i: nat)
    requires SameWallets(a, b)
    ensures DueTo(a, dues, i) == DueTo(b, dues, i)
    decreases |dues|
  {
    if |dues| > 0 {
      UserByWalletSame(a, b, dues[0].0);
      DueToSame(a, b, dues[1..], i);
    }
  }

  /** Each user's running total of deducted zakat grows by exactly the dues
      of the wallets whose first user it is, and by nothing else. */
  lemma {:induction false} FoldTotals(db: Db, rows: seq<Row<WalletDoc>>, cursorOf: string -> seq<Row<Utxo>>,
                                      zakatWallet: string, now: int, idFor: nat -> string)
    ensures var after := ZakatFold(db, rows, cursorOf, zakatWallet, now, idFor);
      && |after.users| == |db.users|
      && forall i :: 0 <= i < |db.users| ==>
           after.users[i].zakatDeducted == db.users[i].zakatDeducted + DueTo(db.users, Dues(rows, cursorOf), i)
    decreases |rows|
  {
    if |rows| > 0 {
      var next := Step(db, rows[0], cursorOf, zakatWallet, now, idFor);
      var after := ZakatFold(next, rows[1..], cursorOf, zakatWallet, now, idFor);
      FoldTotals(next, rows[1..], cursorOf, zakatWallet, now, idFor);
      var rest := Dues(rows[1..], cursorOf);
      assert SameWallets(next.users, db.users);
      forall i | 0 <= i < |db.users|
        ensures after.users[i].zakatDeducted == db.users[i].zakatDeducted + DueTo(db.users, Dues(rows, cursorOf), i)
      {
        DueToSame(next.users, db.users, rest, i);
        var o := Owed(rows[0], cursorOf);
        if o.Some? {
          var d := (rows[0].value.walletId, o.value);
          assert Dues(rows, cursorOf) == [d] + rest;
          assert ([d] + rest)[1..] == rest;
        } else {
          assert Dues(rows, cursorOf) == rest;
        }
      }
    } else {
      assert forall i :: 0 <= i < |db.users| ==> DueTo(db.users, Dues(rows, cursorOf), i) == 0.0;
    }
  }

  /** Every wallet that owes nothing is skipped: a run over wallets none of
      which owes anything changes nothing. */
  lemma {:induction false} NothingOwedNothingQueued(db: Db, rows: seq<Row<WalletDoc>>, cursorOf: string -> seq<Row<Utxo>>,
                                                    zakatWallet: string, now: int, idFor: nat -> string)
    requires forall i :: 0 <= i < |rows| ==> Owed(rows[i], cursorOf).None?
    ensures ZakatFold(db, rows, cursorOf, zakatWallet, now, idFor) == db
    decreases |rows|
  {
    if |rows| > 0 {
      assert Owed(rows[0], cursorOf).None?;
      NothingOwedNothingQueued(db, rows[1..], cursorOf, zakatWallet, now, idFor);
    }
  }

  /** On the service's clean store, a wallet owes exactly 2.5% of its
      balance when that balance is positive. */
  lemma OwedOnStore(store: seq<Utxo>, doc: WalletDoc)
    ensures Owed(Decoded(doc), (w: string) => AsRows(Unspent(store, w)))
         == (if Balance(store, doc.walletId) > 0.0 then Some(Zakat.ZakatOf(Balance(store, doc.walletId))) else None)
  {
    BalanceOfStore(store, doc.walletId);
  }
}
