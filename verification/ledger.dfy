/** The records the wallet service keeps in its store (unspent outputs,
    transactions, blocks), the string constants it tags them with, and the
    sums every ledger operation is measured by. */
module Ledger {

  const StatusPending := "pending"
  const StatusConfirmed := "confirmed"

  const KindNormal := "normal"
  const KindZakat := "zakat_deduction"
  const KindReward := "mining_reward"
  const KindFaucet := "faucet"

  const CoinbaseSender := "SYSTEM_COINBASE"
  const FaucetSender := "SYSTEM_FAUCET"

  /** Value minted by the coinbase transaction of every mined block. */
  const MiningReward: real := 50.0

  /** The `_id` of a stored document: an ObjectID assigned by the store on
      insertion (identified by its insertion serial), or anything else. */
  datatype DocId = ObjectId(serial: nat) | NoObjectId

  datatype Utxo = Utxo(
    id: DocId,
    txId: string,
    index: int,
    owner: string,
    amount: real,
    isSpent: bool)

  datatype TxInput = TxInput(utxoId: DocId, index: int)

  datatype TxOutput = TxOutput(owner: string, amount: real)

  datatype Tx = Tx(
    id: string,
    sender: string,
    receiver: string,
    amount: real,
    note: string,
    timestamp: int,
    senderPubKey: string,
    signature: string,
    inputs: seq<TxInput>,
    outputs: seq<TxOutput>,
    kind: string,
    status: string)

  datatype Block = Block(
    index: int,
    timestamp: int,
    txs: seq<Tx>,
    previousHash: string,
    nonce: int,
    hash: string,
    merkleRoot: string)

  /** The fields by which the miner's spend update finds an output. */
  datatype UtxoKey = UtxoKey(txId: string, owner: string, amount: real)

  function Key(u: Utxo): UtxoKey {
    UtxoKey(u.txId, u.owner, u.amount)
  }

  /** A transaction with no id, inputs, outputs, key or signature yet. */
  function BareTx(sender: string, receiver: string, amount: real, note: string,
                  timestamp: int, kind: string, status: string): Tx
  {
    Tx("", sender, receiver, amount, note, timestamp, "", "", [], [], kind, status)
  }

  /** Total value of a sequence of outputs. */
  function Sum(us: seq<Utxo>): real {
    if |us| == 0 then 0.0 else us[0].amount + Sum(us[1..])
  }

  /** Total value of a sequence of transaction outputs. */
  function OutputSum(os: seq<TxOutput>): real {
    if |os| == 0 then 0.0 else os[0].amount + OutputSum(os[1..])
  }

  /** The unspent outputs owned by `w`, in store order: what the query
      `{owner_wallet: w, is_spent: false}` returns. */
  function Unspent(store: seq<Utxo>, w: string): (r: seq<Utxo>)
    ensures forall i :: 0 <= i < |r| ==> r[i].owner == w && !r[i].isSpent
    ensures |r| <= |store|
  {
    if |store| == 0 then []
    else (if store[0].owner == w && !store[0].isSpent then [store[0]] else []) + Unspent(store[1..], w)
  }

  /** Spendable value of wallet `w`. */
  function Balance(store: seq<Utxo>, w: string): real {
    Sum(Unspent(store, w))
  }

  /** Spendable value of all wallets together. */
  function UnspentTotal(store: seq<Utxo>): real {
    if |store| == 0 then 0.0
    else (if store[0].isSpent then 0.0 else store[0].amount) + UnspentTotal(store[1..])
  }

  /** Keys of the unspent outputs of the store, with multiplicity. */
  function UnspentKeys(store: seq<Utxo>): multiset<UtxoKey> {
    if |store| == 0 then multiset{}
    else (if store[0].isSpent then multiset{} else multiset{Key(store[0])}) + UnspentKeys(store[1..])
  }

  /** Keys of a sequence of outputs, with multiplicity. */
  function Keys(us: seq<Utxo>): multiset<UtxoKey> {
    if |us| == 0 then multiset{} else multiset{Key(us[0])} + Keys(us[1..])
  }

  /** Insert an output; the store gives it a fresh ObjectID. */
  function InsertUtxo(store: seq<Utxo>, u: Utxo): seq<Utxo> {
    store + [u.(id := ObjectId(|store|))]
  }

  /** An output that is not yet spent and whose id the store assigns. */
  function NewUtxo(txId: string, owner: string, amount: real): Utxo {
    Utxo(NoObjectId, txId, 0, owner, amount, false)
  }

  lemma {:induction false} SumAppend(a: seq<Utxo>, b: seq<Utxo>)
    ensures Sum(a + b) == Sum(a) + Sum(b)
  {
    if |a| > 0 {
      assert (a + b)[1..] == a[1..] + b;
      SumAppend(a[1..], b);
    } else {
      assert a + b == b;
    }
  }

  lemma {:induction false} OutputSumAppend(a: seq<TxOutput>, b: seq<TxOutput>)
    ensures OutputSum(a + b) == OutputSum(a) + OutputSum(b)
  {
    if |a| > 0 {
      assert (a + b)[1..] == a[1..] + b;
      OutputSumAppend(a[1..], b);
    } else {
      assert a + b == b;
    }
  }

  /** The value of a collection of outputs does not depend on the order in
      which the store returns them. */
  lemma {:induction false} SumPermutation(a: seq<Utxo>, b: seq<Utxo>)
    requires multiset(a) == multiset(b)
    ensures Sum(a) == Sum(b)
    decreases |a|
  {
    if |a| == 0 {
      assert |b| == |multiset(b)| == 0;
    } else {
      assert a[0] in multiset(b);
      var j :| 0 <= j < |b| && b[j] == a[0];
      var rest := b[..j] + b[j + 1..];
      MultisetRemove(b, j);
      assert a == [a[0]] + a[1..];
      assert multiset(a) == multiset{a[0]} + multiset(a[1..]);
      assert multiset(a[1..]) == multiset(a) - multiset{a[0]};
      assert multiset(rest) == multiset(b) - multiset{b[j]};
      SumPermutation(a[1..], rest);
      SumRemove(b, j);
    }
  }

  lemma MultisetRemove(b: seq<Utxo>, j: nat)
    requires j < |b|
    ensures multiset(b) == multiset{b[j]} + multiset(b[..j] + b[j + 1..])
  {
    assert b == b[..j] + [b[j]] + b[j + 1..];
  }

  lemma SumRemove(b: seq<Utxo>, j: nat)
    requires j < |b|
    ensures Sum(b) == b[j].amount + Sum(b[..j] + b[j + 1..])
  {
    var tail := [b[j]] + b[j + 1..];
    assert b == b[..j] + tail;
    SumAppend(b[..j], tail);
    assert tail[1..] == b[j + 1..];
    SumAppend(b[..j], b[j + 1..]);
  }

  lemma {:induction false} UnspentAppend(store: seq<Utxo>, u: Utxo, w: string)
    ensures Unspent(store + [u], w)
         == Unspent(store, w) + (if u.owner == w && !u.isSpent then [u] else [])
  {
    if |store| > 0 {
      assert (store + [u])[1..] == store[1..] + [u];
      UnspentAppend(store[1..], u, w);
    }
  }

  /** Inserting an output raises the owner's balance by its amount, if it
      is unspent, and leaves every other wallet's balance alone. */
  lemma BalanceInsert(store: seq<Utxo>, u: Utxo, w: string)
    ensures Balance(InsertUtxo(store, u), w)
         == Balance(store, w) + (if u.owner == w && !u.isSpent then u.amount else 0.0)
  {
    var v := u.(id := ObjectId(|store|));
    UnspentAppend(store, v, w);
    SumAppend(Unspent(store, w), if v.owner == w && !v.isSpent then [v] else []);
  }

  lemma {:induction false} UnspentTotalAppend(store: seq<Utxo>, u: Utxo)
    ensures UnspentTotal(store + [u]) == UnspentTotal(store) + (if u.isSpent then 0.0 else u.amount)
  {
    if |store| > 0 {
      assert (store + [u])[1..] == store[1..] + [u];
      UnspentTotalAppend(store[1..], u);
    }
  }

  lemma {:induction false} UnspentKeysAppend(store: seq<Utxo>, u: Utxo)
    ensures UnspentKeys(store + [u]) == UnspentKeys(store) + (if u.isSpent then multiset{} else multiset{Key(u)})
  {
    if |store| > 0 {
      assert (store + [u])[1..] == store[1..] + [u];
      UnspentKeysAppend(store[1..], u);
    }
  }

  /** The outputs a wallet query returns are unspent outputs of the store. */
  lemma {:induction false} KeysOfUnspent(store: seq<Utxo>, w: string)
    ensures Keys(Unspent(store, w)) <= UnspentKeys(store)
  {
    if |store| > 0 {
      KeysOfUnspent(store[1..], w);
      var head := if store[0].owner == w && !store[0].isSpent then [store[0]] else [];
      KeysAppend(head, Unspent(store[1..], w));
    }
  }

  lemma {:induction false} KeysAppend(a: seq<Utxo>, b: seq<Utxo>)
    ensures Keys(a + b) == Keys(a) + Keys(b)
  {
    if |a| > 0 {
      assert (a + b)[1..] == a[1..] + b;
      KeysAppend(a[1..], b);
    } else {
      assert a + b == b;
    }
  }

  lemma KeysPrefix(us: seq<Utxo>, n: nat)
    requires n <= |us|
    ensures Keys(us[..n]) <= Keys(us)
  {
    assert us == us[..n] + us[n..];
    KeysAppend(us[..n], us[n..]);
  }

  /** Sum of a one-longer prefix: the next output's amount is added. */
  lemma SumPrefixStep(us: seq<Utxo>, k: nat)
    requires k < |us|
    ensures Sum(us[..k + 1]) == Sum(us[..k]) + us[k].amount
  {
    assert us[..k + 1] == us[..k] + [us[k]];
    SumAppend(us[..k], [us[k]]);
  }

  /** A prefix that starts at the head: its sum is the head's amount plus
      the sum of the tail's prefix. */
  lemma SumPrefixHead(us: seq<Utxo>, k: nat)
    requires 1 <= k <= |us|
    ensures Sum(us[..k]) == us[0].amount + Sum(us[1..][..k - 1])
  {
    assert us[..k][1..] == us[1..][..k - 1];
  }

  predicate NonNegative(us: seq<Utxo>) {
    forall i :: 0 <= i < |us| ==> us[i].amount >= 0.0
  }

  /** With no negative amounts, a prefix is worth no more than the whole. */
  lemma SumPrefixBounded(us: seq<Utxo>, k: nat)
    requires k <= |us| && NonNegative(us)
    ensures Sum(us[..k]) <= Sum(us)
  {
    assert us == us[..k] + us[k..];
    SumAppend(us[..k], us[k..]);
    SumNonNegative(us[k..]);
  }

  lemma {:induction false} SumNonNegative(us: seq<Utxo>)
    requires NonNegative(us)
    ensures Sum(us) >= 0.0
  {
    if |us| > 0 {
      SumNonNegative(us[1..]);
    }
  }

  /** Length of the greedy prefix: outputs are taken in order until their
      running sum reaches `target`, or all are taken. At least one is taken
      whenever there is one, even for a target of zero or less. */
  function GreedyCover(us: seq<Utxo>, target: real): (n: nat)
    ensures n <= |us|
    ensures |us| > 0 ==> n >= 1
  {
    if |us| == 0 then 0
    else if us[0].amount >= target then 1
    else 1 + GreedyCover(us[1..], target - us[0].amount)
  }

  /** The greedy prefix is the shortest non-empty prefix that covers the
      target: every shorter non-empty prefix falls short, and it covers the
      target unless it is the whole sequence. */
  lemma {:induction false} GreedyCoverMinimal(us: seq<Utxo>, target: real)
    ensures forall k :: 1 <= k < GreedyCover(us, target) ==> Sum(us[..k]) < target
    ensures GreedyCover(us, target) < |us| ==> Sum(us[..GreedyCover(us, target)]) >= target
    ensures |us| > 0 && Sum(us[..GreedyCover(us, target)]) < target ==> GreedyCover(us, target) == |us|
  {
    if |us| > 0 && us[0].amount < target {
      var t := target - us[0].amount;
      GreedyCoverMinimal(us[1..], t);
      var n := GreedyCover(us, target);
      forall k | 1 <= k <= n
        ensures Sum(us[..k]) == us[0].amount + Sum(us[1..][..k - 1])
      {
        SumPrefixHead(us, k);
      }
    } else if |us| > 0 {
      assert us[..1] == [us[0]];
    }
  }

  /** The greedy prefix reaches the target exactly when the whole sequence
      does, provided no amount is negative (every stored amount is positive
      in practice: the service only creates positive outputs). */
  lemma GreedyCoverFunded(us: seq<Utxo>, target: real)
    requires NonNegative(us)
    ensures Sum(us[..GreedyCover(us, target)]) >= target <==> Sum(us) >= target
  {
    GreedyCoverMinimal(us, target);
    var n := GreedyCover(us, target);
    SumPrefixBounded(us, n);
    assert us[..|us|] == us;
  }

  /** The greedy prefix is the only non-empty prefix that covers the target
      while every shorter non-empty prefix falls short. */
  lemma GreedyCoverUnique(us: seq<Utxo>, target: real, k: nat)
    requires 1 <= k <= |us|
    requires Sum(us[..k]) >= target
    requires forall j :: 1 <= j < k ==> Sum(us[..j]) < target
    ensures GreedyCover(us, target) == k
  {
    GreedyCoverMinimal(us, target);
  }
}
