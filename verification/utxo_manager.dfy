/** The UTXO manager: a wallet's balance and the greedy choice of outputs
    that pays for a new transfer. Both read the cursor the store returns
    for `{owner_wallet: w, is_spent: false}`; a document that fails to
    decode aborts either operation. */
module UtxoManager {
  import opened Wrappers
  import opened Ledger

  const InsufficientFunds := "insufficient funds"

  /** Outputs chosen to pay an amount, and what is left over. */
  datatype Selection = Selection(chosen: seq<Utxo>, change: real)

  /** The balance is the sum of the amounts the cursor yields. A document
      that fails to decode aborts the sum: the result is an error and no
      partial total. */
  function GetBalance(cursor: seq<Row<Utxo>>): (r: Result<real>)
    ensures r.Ok? <==> AllDecoded(cursor)
    ensures r.Ok? ==> r.value == Sum(DecodedValues(cursor))
    ensures r.Err? ==> r.error == Fault
  {
    if |cursor| == 0 then Ok(0.0)
    else if cursor[0].Corrupt? then Err(Fault)
    else match GetBalance(cursor[1..])
      case Ok(rest) => Ok(cursor[0].value.amount + rest)
      case Err(e) => Err(e)
  }

  /** The balance does not depend on the order in which the store returns
      the wallet's outputs. */
  lemma BalanceOrderIndependent(a: seq<Utxo>, b: seq<Utxo>)
    requires multiset(a) == multiset(b)
    ensures GetBalance(AsRows(a)) == GetBalance(AsRows(b))
  {
    DecodedValuesAsRows(a);
    DecodedValuesAsRows(b);
    SumPermutation(a, b);
  }

  /** On a store with no corrupt documents the balance a wallet sees is the
      ledger's balance of that wallet. */
  lemma BalanceOfStore(store: seq<Utxo>, w: string)
    ensures GetBalance(AsRows(Unspent(store, w))) == Ok(Balance(store, w))
  {
    DecodedValuesAsRows(Unspent(store, w));
  }

  /** The values of the cursor up to its first corrupt document. */
  function CleanValues(cursor: seq<Row<Utxo>>): (vs: seq<Utxo>)
    ensures |vs| == FirstCorrupt(cursor)
    ensures forall k :: 0 <= k < |vs| ==> cursor[k] == Decoded(vs[k])
  {
    var n := FirstCorrupt(cursor);
    var vs := DecodedValues(cursor[..n]);
    assert forall k :: 0 <= k < n ==> cursor[..n][k] == cursor[k];
    vs
  }

  /** Walk the cursor, taking each output, until the running sum reaches
      `amount`. Succeeds with the taken prefix and the change; fails with
      "insufficient funds" when the cursor runs out first, and with the
      decode error when a corrupt document is reached first. */
  method SelectUtxosForAmount(cursor: seq<Row<Utxo>>, amount: real) returns (r: Result<Selection>)
    ensures r.Ok? ==>
      var ch := r.value.chosen;
      && 1 <= |ch| <= |cursor|
      && (forall k :: 0 <= k < |ch| ==> cursor[k] == Decoded(ch[k]))
      && Sum(ch) >= amount
      && (forall k :: 1 <= k < |ch| ==> Sum(ch[..k]) < amount)
      && r.value.change == Sum(ch) - amount
      && r.value.change >= 0.0
    ensures r.Err? ==>
      var vs := CleanValues(cursor);
      forall k :: 1 <= k <= |vs| ==> Sum(vs[..k]) < amount
    ensures r.Err? ==> (r.error == Fault <==> !AllDecoded(cursor))
    ensures r.Err? ==> r.error == Fault || r.error == Message(InsufficientFunds)
    ensures |cursor| == 0 ==> r == Err(Message(InsufficientFunds))
    ensures AllDecoded(cursor) && NonNegative(CleanValues(cursor)) ==>
      (r.Ok? <==> |cursor| > 0 && Sum(CleanValues(cursor)) >= amount)
  {
    var vs := CleanValues(cursor);
    var chosen: seq<Utxo> := [];
    var sum := 0.0;
    var i := 0;
    while i < |cursor|
      invariant 0 <= i <= |vs|
      invariant chosen == vs[..i]
      invariant sum == Sum(chosen)
      invariant forall k :: 1 <= k <= i ==> Sum(vs[..k]) < amount
    {
      if cursor[i].Corrupt? {
        return Err(Fault);
      }
      var u := cursor[i].value;
      assert vs[i] == u;
      SumPrefixStep(vs, i);
      chosen := chosen + [u];
      sum := sum + u.amount;
      i := i + 1;
      assert chosen == vs[..i];
      if sum >= amount {
        assert forall k :: 1 <= k < i ==> chosen[..k] == vs[..k];
        if AllDecoded(cursor) && NonNegative(vs) {
          SumPrefixBounded(vs, i);
        }
        return Ok(Selection(chosen, sum - amount));
      }
    }
    assert vs[..|vs|] == vs;
    return Err(Message(InsufficientFunds));
  }
}
