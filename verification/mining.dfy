/** The miner: it assembles a block from a coinbase reward and every
    pending transaction, searches its nonce, and then replays the pending
    transactions one after another against the unspent outputs, spending
    the sender's outputs greedily and minting the receiver's and the
    change outputs. A transaction the sender cannot cover at that moment is
    skipped; the pending pool is emptied either way. */
module Mining {
  import opened Wrappers
  import opened Ledger
  import opened Http
  import opened Store
  import opened Hashing
  import opened Merkle
  import opened Pow
  import opened Validation

  const MissingMiner := "missing miner wallet in token"
  const MinedMessage := "block mined with reward and pending transactions"
  const RewardNote := "Mining reward"

  /** The block of greatest index, if there is one. */
  function LastBlock(blocks: seq<Block>): (r: Option<Block>)
    ensures r.None? <==> |blocks| == 0
    ensures r.Some? ==> r.value in blocks
    ensures r.Some? ==> forall b :: b in blocks ==> b.index <= r.value.index
  {
    if |blocks| == 0 then None
    else
      var rest := LastBlock(blocks[1..]);
      assert forall b :: b in blocks ==> b == blocks[0] || b in blocks[1..];
      if rest.None? || blocks[0].index >= rest.value.index then Some(blocks[0]) else rest
  }

  /** The reward transaction: from the coinbase sender to the miner, for the
      mining reward, already confirmed. */
  function Coinbase(id: string, miner: string, now: int): Tx {
    BareTx(CoinbaseSender, miner, MiningReward, RewardNote, now, KindReward, StatusConfirmed).(id := id)
  }

  /** The block before its nonce search: the coinbase followed by the
      pending transactions, chained onto the last block when there is one. */
  function AssembleBlock(p: Primitives, last: Option<Block>, coinbase: Tx, pending: seq<Tx>, now: int): (b: Block)
    ensures b.txs == [coinbase] + pending && |b.txs| == |pending| + 1
    ensures last.None? ==> b.index == 0 && b.previousHash == ""
    ensures last.Some? ==> b.index == last.value.index + 1 && b.previousHash == last.value.hash
    ensures b.merkleRoot == MerkleRoot(p, b.txs)
  {
    var txs := [coinbase] + pending;
    Block(
      if last.Some? then last.value.index + 1 else 0,
      now, txs,
      if last.Some? then last.value.hash else "",
      0, "", MerkleRoot(p, txs))
  }

  /** A block built on top of the last block is accepted against it. */
  lemma AssembledBlockLinks(p: Primitives, last: Option<Block>, coinbase: Tx, pending: seq<Tx>, now: int, nonce: int, hash: string)
    ensures ValidateBlock(AssembleBlock(p, last, coinbase, pending, now).(nonce := nonce, hash := hash), last) == None
  {
  }

  // ---------------------------------------------------------------------
  // Spending

  /** The spend update: the first unspent output matching the key (its
      transaction id, owner and amount) is marked spent; with none, the
      store is unchanged. */
  function MarkFirst(store: seq<Utxo>, k: UtxoKey): (r: seq<Utxo>)
    ensures |r| == |store|
  {
    if |store| == 0 then []
    else if !store[0].isSpent && Key(store[0]) == k then [store[0].(isSpent := true)] + store[1..]
    else [store[0]] + MarkFirst(store[1..], k)
  }

  lemma SumCons(u: Utxo, us: seq<Utxo>)
    ensures Sum([u] + us) == u.amount + Sum(us)
  {
    assert ([u] + us)[1..] == us;
  }

  lemma UnspentCons(u: Utxo, us: seq<Utxo>, w: string)
    ensures Unspent([u] + us, w) == (if u.owner == w && !u.isSpent then [u] else []) + Unspent(us, w)
  {
    assert ([u] + us)[1..] == us;
  }

  lemma ConsTails(u: Utxo, us: seq<Utxo>)
    ensures ([u] + us)[0] == u && ([u] + us)[1..] == us
  {
  }

  /** Spending an output whose key is among the unspent keys removes one
      copy of that key. */
  lemma {:induction false} MarkFirstKeys(store: seq<Utxo>, k: UtxoKey)
    requires k in UnspentKeys(store)
    ensures UnspentKeys(MarkFirst(store, k)) == UnspentKeys(store) - multiset{k}
  {
    var r := MarkFirst(store, k);
    var h := store[0];
    if !h.isSpent && Key(h) == k {
      ConsTails(h.(isSpent := true), store[1..]);
    } else {
      ConsTails(h, MarkFirst(store[1..], k));
      assert k in UnspentKeys(store[1..]);
      MarkFirstKeys(store[1..], k);
    }
  }

  /** ... and lowers the total unspent value by its amount. */
  lemma {:induction false} MarkFirstTotal(store: seq<Utxo>, k: UtxoKey)
    requires k in UnspentKeys(store)
    ensures UnspentTotal(MarkFirst(store, k)) == UnspentTotal(store) - k.amount
  {
    var h := store[0];
    if !h.isSpent && Key(h) == k {
      ConsTails(h.(isSpent := true), store[1..]);
    } else {
      ConsTails(h, MarkFirst(store[1..], k));
      assert k in UnspentKeys(store[1..]);
      MarkFirstTotal(store[1..], k);
    }
  }

  /** ... and lowers the balance of its owner, and of no one else, by its
      amount. */
  lemma {:induction false} MarkFirstBalance(store: seq<Utxo>, k: UtxoKey, w: string)
    requires k in UnspentKeys(store)
    ensures Balance(MarkFirst(store, k), w) == Balance(store, w) - (if k.owner == w then k.amount else 0.0)
  {
    var r := MarkFirst(store, k);
    var h := store[0];
    var tail := Unspent(store[1..], w);
    assert Unspent(store, w) == (if h.owner == w && !h.isSpent then [h] else []) + tail;
    if h.owner == w && !h.isSpent {
      SumCons(h, tail);
    } else {
      assert Unspent(store, w) == tail;
    }
    if !h.isSpent && Key(h) == k {
      UnspentCons(h.(isSpent := true), store[1..], w);
      assert Unspent(r, w) == tail;
    } else {
      var rest := MarkFirst(store[1..], k);
      assert k in UnspentKeys(store[1..]);
      MarkFirstBalance(store[1..], k, w);
      UnspentCons(h, rest, w);
      if h.owner == w && !h.isSpent {
        SumCons(h, Unspent(rest, w));
      } else {
        assert Unspent(r, w) == Unspent(rest, w);
      }
    }
  }

  /** Spend the outputs `used`, one spend update each, in order. */
  function SpendAll(store: seq<Utxo>, used: seq<Utxo>): (r: seq<Utxo>)
    ensures |r| == |store|
    decreases |used|
  {
    if |used| == 0 then store else SpendAll(MarkFirst(store, Key(used[0])), used[1..])
  }

  /** Spending outputs that are all unspent in the store removes exactly
      their keys ... */
  lemma {:induction false} SpendAllKeys(store: seq<Utxo>, used: seq<Utxo>)
    requires Keys(used) <= UnspentKeys(store)
    ensures UnspentKeys(SpendAll(store, used)) == UnspentKeys(store) - Keys(used)
    decreases |used|
  {
    if |used| > 0 {
      var k := Key(used[0]);
      assert Keys(used) == multiset{k} + Keys(used[1..]);
      MarkFirstKeys(store, k);
      SpendAllKeys(MarkFirst(store, k), used[1..]);
    }
  }

  /** ... lowers the unspent total by their value ... */
  lemma {:induction false} SpendAllTotal(store: seq<Utxo>, used: seq<Utxo>)
    requires Keys(used) <= UnspentKeys(store)
    ensures UnspentTotal(SpendAll(store, used)) == UnspentTotal(store) - Sum(used)
    decreases |used|
  {
    if |used| > 0 {
      var k := Key(used[0]);
      assert Keys(used) == multiset{k} + Keys(used[1..]);
      MarkFirstKeys(store, k);
      MarkFirstTotal(store, k);
      SpendAllTotal(MarkFirst(store, k), used[1..]);
    }
  }

  /** ... and, when they share one owner, lowers that owner's balance, and
      no one else's, by their value. */
  lemma {:induction false} SpendAllBalance(store: seq<Utxo>, used: seq<Utxo>, owner: string, w: string)
    requires Keys(used) <= UnspentKeys(store)
    requires forall i :: 0 <= i < |used| ==> used[i].owner == owner
    ensures Balance(SpendAll(store, used), w) == Balance(store, w) - (if w == owner then Sum(used) else 0.0)
    decreases |used|
  {
    if |used| > 0 {
      var k := Key(used[0]);
      assert Keys(used) == multiset{k} + Keys(used[1..]);
      MarkFirstKeys(store, k);
      MarkFirstBalance(store, k, w);
      SpendAllBalance(MarkFirst(store, k), used[1..], owner, w);
    }
  }

  // ---------------------------------------------------------------------
  // Replaying one pending transaction

  /** The sender's outputs the miner takes: its unspent outputs in store
      order, up to the first running sum that reaches the amount. */
  function Inputs(store: seq<Utxo>, t: Tx): (used: seq<Utxo>)
    ensures forall i :: 0 <= i < |used| ==> used[i].owner == t.sender && !used[i].isSpent
    ensures Keys(used) <= UnspentKeys(store)
  {
    var avail := Unspent(store, t.sender);
    var n := GreedyCover(avail, t.amount);
    KeysPrefix(avail, n);
    KeysOfUnspent(store, t.sender);
    avail[..n]
  }

  /** The outputs minted for a processed transaction, appended to the store
      after its inputs are spent: one for the receiver of the amount and,
      when `change` is positive, one for the sender of the change. */
  function Pay(spent: seq<Utxo>, t: Tx, change: real): (r: seq<Utxo>)
    ensures |r| == |spent| + (if change > 0.0 then 2 else 1)
    ensures r[..|spent|] == spent
    ensures r[|spent|] == Utxo(ObjectId(|spent|), t.id, 0, t.receiver, t.amount, false)
    ensures change > 0.0 ==> r[|spent| + 1] == Utxo(ObjectId(|spent| + 1), t.id, 0, t.sender, change, false)
  {
    var paid := InsertUtxo(spent, NewUtxo(t.id, t.receiver, t.amount));
    if change > 0.0 then InsertUtxo(paid, NewUtxo(t.id, t.sender, change)) else paid
  }

  /** The minted outputs add the amount and the positive change to the
      unspent value ... */
  lemma PayTotal(spent: seq<Utxo>, t: Tx, change: real)
    ensures UnspentTotal(Pay(spent, t, change))
         == UnspentTotal(spent) + t.amount + (if change > 0.0 then change else 0.0)
  {
    var recv := NewUtxo(t.id, t.receiver, t.amount);
    var paid := InsertUtxo(spent, recv);
    UnspentTotalAppend(spent, recv.(id := ObjectId(|spent|)));
    if change > 0.0 {
      UnspentTotalAppend(paid, NewUtxo(t.id, t.sender, change).(id := ObjectId(|paid|)));
    }
  }

  /** ... to the unspent keys ... */
  lemma PayKeys(spent: seq<Utxo>, t: Tx, change: real)
    ensures UnspentKeys(Pay(spent, t, change))
         == UnspentKeys(spent) + multiset{UtxoKey(t.id, t.receiver, t.amount)}
            + (if change > 0.0 then multiset{UtxoKey(t.id, t.sender, change)} else multiset{})
  {
    var recv := NewUtxo(t.id, t.receiver, t.amount);
    var paid := InsertUtxo(spent, recv);
    UnspentKeysAppend(spent, recv.(id := ObjectId(|spent|)));
    if change > 0.0 {
      UnspentKeysAppend(paid, NewUtxo(t.id, t.sender, change).(id := ObjectId(|paid|)));
    }
  }

  /** ... and to the receiver's and the sender's balances. */
  lemma PayBalance(spent: seq<Utxo>, t: Tx, change: real, w: string)
    ensures Balance(Pay(spent, t, change), w)
         == Balance(spent, w) + (if w == t.receiver then t.amount else 0.0)
            + (if w == t.sender && change > 0.0 then change else 0.0)
  {
    var recv := NewUtxo(t.id, t.receiver, t.amount);
    var paid := InsertUtxo(spent, recv);
    BalanceInsert(spent, recv, w);
    if change > 0.0 {
      BalanceInsert(paid, NewUtxo(t.id, t.sender, change), w);
    }
  }

  /** The store after a transaction, and the confirmed copy of the
      transaction when it was processed. */
  datatype Applied = Applied(utxos: seq<Utxo>, confirmed: Option<Tx>)

  function ApplyTx(store: seq<Utxo>, t: Tx): Applied {
    var used := Inputs(store, t);
    var total := Sum(used);
    if total < t.amount then Applied(store, None)
    else Applied(Pay(SpendAll(store, used), t, total - t.amount), Some(t.(status := StatusConfirmed)))
  }

  /** A skipped transaction changes nothing, and it is skipped only when the
      sender's balance is below its amount. When the sender holds no
      negative output the converse holds as well. */
  lemma ApplyTxSkip(store: seq<Utxo>, t: Tx)
    ensures ApplyTx(store, t).confirmed.None? ==> ApplyTx(store, t).utxos == store
    ensures ApplyTx(store, t).confirmed.None? ==> Balance(store, t.sender) < t.amount
    ensures NonNegative(Unspent(store, t.sender)) ==>
      (ApplyTx(store, t).confirmed.None? <==> Balance(store, t.sender) < t.amount)
  {
    var avail := Unspent(store, t.sender);
    GreedyCoverMinimal(avail, t.amount);
    assert avail[..|avail|] == avail;
    if NonNegative(avail) {
      GreedyCoverFunded(avail, t.amount);
    }
  }

  /** A processed transaction spends exactly its inputs and mints the
      receiver's output and the positive change (see `Pay`); the inputs are
      worth the amount plus the change. */
  lemma ApplyTxProcessed(store: seq<Utxo>, t: Tx)
    requires ApplyTx(store, t).confirmed.Some?
    ensures ApplyTx(store, t).confirmed.value == t.(status := StatusConfirmed)
    ensures
      var used := Inputs(store, t);
      var change := Sum(used) - t.amount;
      && change >= 0.0
      && ApplyTx(store, t).utxos == Pay(SpendAll(store, used), t, change)
      && Sum(used) == t.amount + (if change > 0.0 then change else 0.0)
  {
  }

  /** The unspent keys lose the inputs' keys and gain the minted outputs'
      keys. */
  lemma ApplyTxKeys(store: seq<Utxo>, t: Tx)
    requires ApplyTx(store, t).confirmed.Some?
    ensures
      var used := Inputs(store, t);
      var change := Sum(used) - t.amount;
      UnspentKeys(ApplyTx(store, t).utxos)
        == UnspentKeys(store) - Keys(used) + multiset{UtxoKey(t.id, t.receiver, t.amount)}
           + (if change > 0.0 then multiset{UtxoKey(t.id, t.sender, change)} else multiset{})
  {
    var used := Inputs(store, t);
    ApplyTxProcessed(store, t);
    SpendThenPayKeys(store, used, t, Sum(used) - t.amount, ApplyTx(store, t).utxos);
  }

  lemma SpendThenPayKeys(store: seq<Utxo>, used: seq<Utxo>, t: Tx, change: real, after: seq<Utxo>)
    requires Keys(used) <= UnspentKeys(store)
    requires after == Pay(SpendAll(store, used), t, change)
    ensures UnspentKeys(after)
         == UnspentKeys(store) - Keys(used) + multiset{UtxoKey(t.id, t.receiver, t.amount)}
            + (if change > 0.0 then multiset{UtxoKey(t.id, t.sender, change)} else multiset{})
  {
    SpendAllKeys(store, used);
    PayKeys(SpendAll(store, used), t, change);
  }

  /** The value spent equals the value minted: the unspent total is
      unchanged by a processed transaction. */
  lemma ApplyTxConserves(store: seq<Utxo>, t: Tx)
    requires ApplyTx(store, t).confirmed.Some?
    ensures UnspentTotal(ApplyTx(store, t).utxos) == UnspentTotal(store)
  {
    var used := Inputs(store, t);
    ApplyTxProcessed(store, t);
    SpendThenPayTotal(store, used, t, Sum(used) - t.amount, ApplyTx(store, t).utxos);
  }

  lemma SpendThenPayTotal(store: seq<Utxo>, used: seq<Utxo>, t: Tx, change: real, after: seq<Utxo>)
    requires Keys(used) <= UnspentKeys(store)
    requires Sum(used) == t.amount + (if change > 0.0 then change else 0.0)
    requires after == Pay(SpendAll(store, used), t, change)
    ensures UnspentTotal(after) == UnspentTotal(store)
  {
    SpendAllTotal(store, used);
    PayTotal(SpendAll(store, used), t, change);
  }

  /** The sender's balance drops by the amount of a processed transaction,
      the receiver's rises by it, and every other balance stays put. */
  lemma ApplyTxBalances(store: seq<Utxo>, t: Tx, w: string)
    requires ApplyTx(store, t).confirmed.Some?
    ensures Balance(ApplyTx(store, t).utxos, w)
         == Balance(store, w) - (if w == t.sender then t.amount else 0.0)
            + (if w == t.receiver then t.amount else 0.0)
  {
    var used := Inputs(store, t);
    ApplyTxProcessed(store, t);
    SpendThenPayBalance(store, used, t, Sum(used) - t.amount, ApplyTx(store, t).utxos, w);
  }

  lemma SpendThenPayBalance(store: seq<Utxo>, used: seq<Utxo>, t: Tx, change: real, after: seq<Utxo>, w: string)
    requires Keys(used) <= UnspentKeys(store)
    requires forall i :: 0 <= i < |used| ==> used[i].owner == t.sender
    requires Sum(used) == t.amount + (if change > 0.0 then change else 0.0)
    requires after == Pay(SpendAll(store, used), t, change)
    ensures Balance(after, w)
         == Balance(store, w) - (if w == t.sender then t.amount else 0.0)
            + (if w == t.receiver then t.amount else 0.0)
  {
    SpendAllBalance(store, used, t.sender, w);
    PayBalance(SpendAll(store, used), t, change, w);
  }

  // ---------------------------------------------------------------------
  // Replaying the pending pool

  /** The store after every pending transaction, in order, and the
      confirmed copies of those that were processed. */
  datatype Replayed = Replayed(utxos: seq<Utxo>, confirmed: seq<Tx>)

  function ApplyAll(store: seq<Utxo>, pending: seq<Tx>): (r: Replayed)
    ensures |r.confirmed| <= |pending|
    decreases |pending|
  {
    if |pending| == 0 then Replayed(store, [])
    else
      var a := ApplyTx(store, pending[0]);
      var rest := ApplyAll(a.utxos, pending[1..]);
      Replayed(rest.utxos, Confirmed(a) + rest.confirmed)
  }

  /** The confirmed copy of a transaction, as a list of zero or one. */
  function Confirmed(a: Applied): seq<Tx> {
    if a.confirmed.Some? then [a.confirmed.value] else []
  }

  /** What a list of transactions moves into wallet `w`: the amounts it
      receives minus the amounts it sends. */
  function NetFlow(txs: seq<Tx>, w: string): real {
    if |txs| == 0 then 0.0
    else
      (if txs[0].receiver == w then txs[0].amount else 0.0)
      - (if txs[0].sender == w then txs[0].amount else 0.0)
      + NetFlow(txs[1..], w)
  }

  /** Replaying the pool neither creates nor destroys value. */
  lemma {:induction false} ApplyAllConserves(store: seq<Utxo>, pending: seq<Tx>)
    ensures UnspentTotal(ApplyAll(store, pending).utxos) == UnspentTotal(store)
    decreases |pending|
  {
    if |pending| > 0 {
      var a := ApplyTx(store, pending[0]);
      ApplyAllConserves(a.utxos, pending[1..]);
      ApplyTxSkip(store, pending[0]);
      if a.confirmed.Some? {
        ApplyTxConserves(store, pending[0]);
      }
    }
  }

  lemma {:induction false} NetFlowAppend(a: seq<Tx>, b: seq<Tx>, w: string)
    ensures NetFlow(a + b, w) == NetFlow(a, w) + NetFlow(b, w)
  {
    if |a| > 0 {
      assert (a + b)[1..] == a[1..] + b;
      NetFlowAppend(a[1..], b, w);
    } else {
      assert a + b == b;
    }
  }

  /** One transaction moves each balance by its own net flow when it is
      confirmed, and not at all when it is skipped. */
  lemma ApplyTxFlow(store: seq<Utxo>, t: Tx, w: string)
    ensures Balance(ApplyTx(store, t).utxos, w) == Balance(store, w) + NetFlow(Confirmed(ApplyTx(store, t)), w)
  {
    var a := ApplyTx(store, t);
    ApplyTxSkip(store, t);
    if a.confirmed.Some? {
      ApplyTxBalances(store, t, w);
      var c := Confirmed(a);
      assert c[0] == t.(status := StatusConfirmed) && c[1..] == [];
    }
  }

  /** Each wallet's balance moves by the net flow of the transactions that
      were confirmed. */
  lemma {:induction false} ApplyAllBalances(store: seq<Utxo>, pending: seq<Tx>, w: string)
    ensures Balance(ApplyAll(store, pending).utxos, w)
         == Balance(store, w) + NetFlow(ApplyAll(store, pending).confirmed, w)
    decreases |pending|
  {
    if |pending| > 0 {
      var a := ApplyTx(store, pending[0]);
      var rest := ApplyAll(a.utxos, pending[1..]);
      ApplyAllBalances(a.utxos, pending[1..], w);
      ApplyTxFlow(store, pending[0], w);
      NetFlowAppend(Confirmed(a), rest.confirmed, w);
    }
  }

  /** The pending transactions with their status set to confirmed. */
  function Stamped(pending: seq<Tx>): (r: seq<Tx>)
    ensures |r| == |pending|
    ensures forall i :: 0 <= i < |pending| ==> r[i] == pending[i].(status := StatusConfirmed)
  {
    seq(|pending|, i requires 0 <= i < |pending| => pending[i].(status := StatusConfirmed))
  }

  /** Every confirmed transaction is a pending one with its status set to
      confirmed, and no pending transaction is confirmed more often than it
      was queued. */
  lemma {:induction false} ApplyAllConfirmed(store: seq<Utxo>, pending: seq<Tx>)
    ensures multiset(ApplyAll(store, pending).confirmed) <= multiset(Stamped(pending))
    decreases |pending|
  {
    if |pending| > 0 {
      var a := ApplyTx(store, pending[0]);
      var rest := ApplyAll(a.utxos, pending[1..]);
      ApplyAllConfirmed(a.utxos, pending[1..]);
      ApplyTxSkip(store, pending[0]);
      if a.confirmed.Some? {
        ApplyTxProcessed(store, pending[0]);
      }
      StampedCons(pending);
      assert multiset(Confirmed(a)) <= multiset{pending[0].(status := StatusConfirmed)};
    }
  }

  lemma StampedCons(pending: seq<Tx>)
    requires |pending| > 0
    ensures Stamped(pending) == [pending[0].(status := StatusConfirmed)] + Stamped(pending[1..])
  {
  }

  // ---------------------------------------------------------------------
  // The mining handler

  /** The store operations of the handler that can fail, and where: the
      read of the pending pool, the insertion of the block, the insertion of
      the reward output. Every later write's error is ignored. */
  datatype MineFault = NoFault | PendingReadFails | BlockInsertFails | RewardInsertFails

  /** The reply of a successful mining run. */
  function MinedBody(b: Block, miner: string, pendingCount: nat): map<string, Json> {
    map[
      "message" := JString(MinedMessage),
      "block_index" := JNumber(b.index as real),
      "block_hash" := JString(b.hash),
      "miner_wallet" := JString(miner),
      "reward_amount" := JNumber(MiningReward),
      "tx_in_block" := JNumber((pendingCount + 1) as real),
      "user_tx_mined" := JNumber(pendingCount as real)]
  }

  /** The reply counts transactions under `tx_in_block` and `user_tx_mined`
      and has no `tx_count` field. */
  lemma MinedBodyHasNoTxCount(b: Block, miner: string, n: nat)
    ensures "tx_count" !in MinedBody(b, miner, n)
    ensures MinedBody(b, miner, n)["tx_in_block"] == JNumber((n + 1) as real)
    ensures MinedBody(b, miner, n)["user_tx_mined"] == JNumber(n as real)
  {
  }

  /** What the read of the last block yields: the block of greatest index
      when the read and its decoding succeed, and nothing otherwise, as on
      an empty chain. */
  function ReadLast(db: Db, lastRead: bool): Option<Block> {
    if lastRead then LastBlock(db.blocks) else None
  }

  /** The block the handler would mine for this miner at this instant. */
  function Candidate(p: Primitives, db: Db, coinbaseId: string, miner: string, now: int, lastRead: bool): Block {
    AssembleBlock(p, ReadLast(db, lastRead), Coinbase(coinbaseId, miner, now), db.pending, now)
  }

  /** When the read of the last block fails on a non-empty chain, the
      candidate starts a second chain: it has index 0 and no previous hash,
      and it does not link onto the real last block. */
  lemma UnreadLastForks(p: Primitives, db: Db, coinbaseId: string, miner: string, now: int, nonce: int, hash: string)
    requires |db.blocks| > 0 && LastBlock(db.blocks).value.index >= 0
    ensures var b := Candidate(p, db, coinbaseId, miner, now, false).(nonce := nonce, hash := hash);
      && b.index == 0 && b.previousHash == ""
      && ValidateBlock(b, LastBlock(db.blocks)).Some?
  {
  }

  /** `POST /api/admin/mine`. The coinbase id, the clock and the
      store's failures are inputs; the difficulty is the configured one.
      `lastRead` says whether the read of the last block and its decoding
      succeeded; the handler does not report that read's error. */
  method MinePending(p: Primitives, difficulty: nat, db: Db, miner: string,
                     coinbaseId: string, now: int, lastRead: bool, fault: MineFault)
    returns (r: Handled, ghost block: Block)
    requires miner != "" && !fault.PendingReadFails? ==> Solvable(p, Candidate(p, db, coinbaseId, miner, now, lastRead), difficulty)
    ensures miner == "" ==> r == Handled(Failure(401, MissingMiner), db)
    ensures miner != "" && fault.PendingReadFails? ==>
      r == Handled(Failure(500, "db error loading pending txs"), db)
    ensures miner != "" && fault.BlockInsertFails? ==>
      r == Handled(Failure(500, "block insert error"), db)
    ensures miner != "" && fault.RewardInsertFails? ==>
      r == Handled(Failure(500, "failed to insert reward UTXO"), db.(blocks := db.blocks + [block]))
    ensures miner != "" && (fault.NoFault? || fault.RewardInsertFails?) ==>
      var c := Candidate(p, db, coinbaseId, miner, now, lastRead);
      && block == c.(nonce := block.nonce, hash := block.hash)
      && block.hash == BlockHash(p, block)
      && HasRequiredDifficulty(block.hash, difficulty)
      && (lastRead ==> ValidateBlock(block, LastBlock(db.blocks)) == None)
      && (!lastRead ==> block.index == 0 && block.previousHash == "")
    ensures miner != "" && fault.NoFault? ==>
      var replayed := ApplyAll(InsertUtxo(db.utxos, NewUtxo(coinbaseId, miner, MiningReward)), db.pending);
      && r.reply == Success(MinedBody(block, miner, |db.pending|))
      && r.db == db.(blocks := db.blocks + [block],
                     utxos := replayed.utxos,
                     txs := db.txs + [Coinbase(coinbaseId, miner, now)] + replayed.confirmed,
                     pending := [])
      && UnspentTotal(r.db.utxos) == UnspentTotal(db.utxos) + MiningReward
  {
    block := Candidate(p, db, coinbaseId, miner, now, lastRead);
    if miner == "" {
      return Handled(Failure(401, MissingMiner), db), block;
    }
    if fault.PendingReadFails? {
      return Handled(Failure(500, "db error loading pending txs"), db), block;
    }
    var coinbase := Coinbase(coinbaseId, miner, now);
    var candidate := AssembleBlock(p, ReadLast(db, lastRead), coinbase, db.pending, now);
    var mined := MineBlock(p, candidate, difficulty);
    block := mined;
    AssembledBlockLinks(p, ReadLast(db, lastRead), coinbase, db.pending, now, mined.nonce, mined.hash);
    if fault.BlockInsertFails? {
      return Handled(Failure(500, "block insert error"), db), block;
    }
    var withBlock := db.(blocks := db.blocks + [mined]);
    if fault.RewardInsertFails? {
      return Handled(Failure(500, "failed to insert reward UTXO"), withBlock), block;
    }
    var reward := NewUtxo(coinbaseId, miner, MiningReward);
    var rewarded := InsertUtxo(db.utxos, reward);
    UnspentTotalAppend(db.utxos, reward.(id := ObjectId(|db.utxos|)));
    var replayed := ApplyAll(rewarded, db.pending);
    ApplyAllConserves(rewarded, db.pending);
    var after := withBlock.(utxos := replayed.utxos,
                            txs := db.txs + [coinbase] + replayed.confirmed,
                            pending := []);
    r := Handled(Success(MinedBody(mined, miner, |db.pending|)), after);
  }

  /** `GET /api/blocks`. `found` is the cursor of the blocks sorted by
      ascending index, or `None` when the query fails. The blocks that
      decode are listed in cursor order; the others are skipped. */
  function GetBlocks(found: Option<seq<Row<Block>>>): (r: Reply)
    ensures found.None? ==> r == Failure(500, DbError)
    ensures found.Some? ==> r.Success? && r.body.Keys == {"blocks"}
    ensures found.Some? ==>
      var listed := DecodedValues(found.value);
      && (r.body["blocks"] == JNull <==> forall k :: 0 <= k < |found.value| ==> found.value[k].Corrupt?)
      && (r.body["blocks"] != JNull ==>
            r.body["blocks"].JArray? && |r.body["blocks"].items| == |listed|
            && forall k :: 0 <= k < |listed| ==> r.body["blocks"].items[k] == BlockJson(listed[k]))
  {
    match found
    case None => Failure(500, DbError)
    case Some(rows) =>
      DecodedValuesEmpty(rows);
      Success(map["blocks" := BlockList(DecodedValues(rows))])
  }

  /** On a cursor in which every block decodes, the reply lists them all,
      in cursor order and with their multiplicity. */
  lemma BlocksInCursorOrder(rows: seq<Row<Block>>)
    requires AllDecoded(rows) && |rows| > 0
    ensures var items := GetBlocks(Some(rows)).body["blocks"].items;
      |items| == |rows| && forall k :: 0 <= k < |rows| ==> items[k] == BlockJson(rows[k].value)
  {
  }

  /** A block that does not decode leaves no trace in the reply. */
  lemma CorruptBlockSkipped(before: seq<Row<Block>>, after: seq<Row<Block>>)
    ensures GetBlocks(Some(before + [Corrupt] + after)) == GetBlocks(Some(before + after))
  {
    var skipped: seq<Row<Block>> := [Corrupt];
    assert skipped[1..] == [];
    assert DecodedValues(skipped) == [];
    DecodedValuesAppend(before + skipped, after);
    DecodedValuesAppend(before, skipped);
    DecodedValuesAppend(before, after);
    assert DecodedValues(before + skipped + after) == DecodedValues(before + after);
  }
}
