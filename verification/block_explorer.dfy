/** The block explorer page: which part of the `/blocks` reply it lists,
    and the newest-first order it shows the blocks in. */
module BlockExplorer {
  import opened Wrappers
  import opened Ledger
  import opened Http
  import opened Store
  import Mining

  /** JavaScript truthiness of a JSON value (NaN does not occur). */
  predicate JsTruthy(v: Json) {
    match v
    case JString(s) => s != ""
    case JNumber(n) => n != 0.0
    case JBool(b) => b
    case JNull => false
    case JArray(_) => true
    case JObject(_) => true
    case JTime(_) => true
    case JObjectIdHex(_) => true
  }

  /** `res.data?.blocks || res.data || []`, then anything that is not an
      array becomes the empty list. */
  function Extract(data: Json): (items: seq<Json>)
    ensures data.JObject? && "blocks" in data.fields && data.fields["blocks"].JArray? ==>
      items == data.fields["blocks"].items
    ensures data.JArray? ==> items == data.items
    ensures data.JObject? && !("blocks" in data.fields && data.fields["blocks"].JArray?) ==> items == []
    ensures !data.JObject? && !data.JArray? ==> items == []
  {
    var picked :=
      if data.JObject? && "blocks" in data.fields && JsTruthy(data.fields["blocks"]) then data.fields["blocks"]
      else if JsTruthy(data) then data
      else JArray([]);
    if picked.JArray? then picked.items else []
  }

  /** The page lists exactly the blocks of the `/blocks` reply, in the
      order the service sent them, and nothing when there are none. */
  lemma ExtractsReply(bs: seq<Block>)
    ensures var items := Extract(JObject(Mining.GetBlocks(Some(AsRows(bs))).body));
      && |items| == |bs|
      && forall k :: 0 <= k < |bs| ==> items[k] == BlockJson(bs[k])
  {
    DecodedValuesAsRows(bs);
  }

  // ---------------------------------------------------------------------
  // Newest first

  predicate Descending(bs: seq<Block>) {
    forall i, j :: 0 <= i < j < |bs| ==> bs[i].index >= bs[j].index
  }

  /** `x` placed in front of the first block whose index is not above its
      own, so that among equal indices the earlier one stays first. */
  function Insert(x: Block, bs: seq<Block>): (r: seq<Block>)
    ensures |r| == |bs| + 1
    ensures multiset(r) == multiset(bs) + multiset{x}
  {
    if |bs| == 0 || x.index >= bs[0].index then [x] + bs
    else
      assert bs == [bs[0]] + bs[1..];
      [bs[0]] + Insert(x, bs[1..])
  }

  lemma {:induction false} InsertDescending(x: Block, bs: seq<Block>)
    requires Descending(bs)
    ensures Descending(Insert(x, bs))
  {
    if |bs| > 0 && x.index < bs[0].index {
      var rest := Insert(x, bs[1..]);
      InsertDescending(x, bs[1..]);
      forall k | 0 <= k < |rest|
        ensures bs[0].index >= rest[k].index
      {
        assert rest[k] in multiset(rest);
        if rest[k] != x {
          assert rest[k] in multiset(bs[1..]);
          var m :| 0 <= m < |bs[1..]| && bs[1..][m] == rest[k];
          assert bs[m + 1] == rest[k];
        }
      }
      assert Insert(x, bs) == [bs[0]] + rest;
    }
  }

  /** The copy the page sorts with `(a, b) => b.index - a.index`: the
      same blocks, newest first. The stored list is left as it is. */
  function SortDescending(bs: seq<Block>): (r: seq<Block>)
    ensures |r| == |bs|
    ensures multiset(r) == multiset(bs)
    ensures Descending(r)
  {
    if |bs| == 0 then []
    else
      assert bs == [bs[0]] + bs[1..];
      InsertDescending(bs[0], SortDescending(bs[1..]));
      Insert(bs[0], SortDescending(bs[1..]))
  }

  predicate StrictlyAscending(bs: seq<Block>) {
    forall i, j :: 0 <= i < j < |bs| ==> bs[i].index < bs[j].index
  }

  function Reverse(bs: seq<Block>): (r: seq<Block>)
    ensures |r| == |bs|
    ensures forall i :: 0 <= i < |bs| ==> r[i] == bs[|bs| - 1 - i]
  {
    if |bs| == 0 then [] else Reverse(bs[1..]) + [bs[0]]
  }

  /** The service sends the chain in ascending index order, so the page
      shows it exactly reversed. */
  lemma {:induction false} ChainShownReversed(bs: seq<Block>)
    requires StrictlyAscending(bs)
    ensures SortDescending(bs) == Reverse(bs)
  {
    if |bs| > 0 {
      assert StrictlyAscending(bs[1..]);
      ChainShownReversed(bs[1..]);
      InsertSmallest(bs[0], Reverse(bs[1..]));
    }
  }

  /** A block older than every other goes to the end. */
  lemma {:induction false} InsertSmallest(x: Block, bs: seq<Block>)
    requires forall k :: 0 <= k < |bs| ==> bs[k].index > x.index
    ensures Insert(x, bs) == bs + [x]
  {
    if |bs| > 0 {
      InsertSmallest(x, bs[1..]);
      assert bs == [bs[0]] + bs[1..];
    }
  }

  /** The blocks of one index, in the order they occur. */
  function AtIndex(bs: seq<Block>, k: int): (r: seq<Block>)
    ensures forall b :: b in r <==> b in bs && b.index == k
  {
    if |bs| == 0 then []
    else (if bs[0].index == k then [bs[0]] else []) + AtIndex(bs[1..], k)
  }

  /** The blocks of one index in a list with one more block in front. */
  lemma AtIndexCons(y: Block, bs: seq<Block>, k: int)
    ensures AtIndex([y] + bs, k) == (if y.index == k then [y] else []) + AtIndex(bs, k)
  {
    assert ([y] + bs)[1..] == bs;
  }

  /** Inserting a block puts it in front of the blocks that share its index. */
  lemma {:induction false} InsertAtIndex(x: Block, bs: seq<Block>, k: int)
    ensures AtIndex(Insert(x, bs), k) == (if x.index == k then [x] else []) + AtIndex(bs, k)
  {
    if |bs| > 0 && x.index < bs[0].index {
      assert bs == [bs[0]] + bs[1..];
      InsertAtIndex(x, bs[1..], k);
      AtIndexCons(bs[0], Insert(x, bs[1..]), k);
      AtIndexCons(bs[0], bs[1..], k);
    } else {
      AtIndexCons(x, bs, k);
    }
  }

  /** The sort is stable: blocks of equal index keep the order the store
      returned them in, as Array.prototype.sort has guaranteed since
      ES2019. */
  lemma {:induction false} SortKeepsTies(bs: seq<Block>, k: int)
    ensures AtIndex(SortDescending(bs), k) == AtIndex(bs, k)
  {
    if |bs| > 0 {
      SortKeepsTies(bs[1..], k);
      InsertAtIndex(bs[0], SortDescending(bs[1..]), k);
    }
  }
}
