/** The service's collections, held in memory: users, wallets, unspent
    outputs, confirmed and pending transactions, blocks and e-mail OTPs. */
module Store {
  import opened Wrappers
  import opened Ledger
  import opened Http

  datatype User = User(
    id: string,
    fullName: string,
    email: string,
    passwordHash: string,
    cnic: string,
    walletId: string,
    publicKey: string,
    encryptedPrivKey: string,
    beneficiaries: seq<string>,
    zakatDeducted: real,
    createdAt: int,
    updatedAt: int,
    emailVerified: bool)

  datatype WalletDoc = WalletDoc(id: string, walletId: string, userId: string)

  datatype EmailOtp = EmailOtp(email: string, otp: string, expiresAt: int, verified: bool)

  datatype Db = Db(
    users: seq<User>,
    wallets: seq<WalletDoc>,
    utxos: seq<Utxo>,
    txs: seq<Tx>,
    pending: seq<Tx>,
    blocks: seq<Block>,
    otps: seq<EmailOtp>)

  /** A handler's reply together with the store it leaves behind. */
  datatype Handled = Handled(reply: Reply, db: Db)

  /** Position of the first element satisfying `f`: the document a
      `FindOne` or `UpdateOne` with that filter touches. */
  function FirstWhere<T>(s: seq<T>, f: T -> bool): (r: Option<nat>)
    ensures r.Some? ==> r.value < |s| && f(s[r.value])
    ensures r.Some? ==> forall j :: 0 <= j < r.value ==> !f(s[j])
    ensures r.None? <==> forall j :: 0 <= j < |s| ==> !f(s[j])
  {
    if |s| == 0 then None
    else if f(s[0]) then Some(0)
    else match FirstWhere(s[1..], f)
      case None => None
      case Some(i) => Some(i + 1)
  }

  function UserByWallet(users: seq<User>, w: string): Option<nat> {
    FirstWhere(users, (u: User) => u.walletId == w)
  }

  function UserByEmail(users: seq<User>, email: string): Option<nat> {
    FirstWhere(users, (u: User) => u.email == email)
  }

  function UserById(users: seq<User>, id: string): Option<nat> {
    FirstWhere(users, (u: User) => u.id == id)
  }

  predicate WalletExists(wallets: seq<WalletDoc>, w: string) {
    exists i :: 0 <= i < |wallets| && wallets[i].walletId == w
  }

  /** `UpdateOne` by wallet id: the first user of that wallet gets `g`
      applied; with no such user nothing changes. */
  function UpdateUserOfWallet(users: seq<User>, w: string, g: User -> User): (r: seq<User>)
    ensures |r| == |users|
  {
    match UserByWallet(users, w)
    case None => users
    case Some(i) => users[i := g(users[i])]
  }

  /** The elements of `s` that satisfy `f`, in order: what a `Find` with
      that filter returns. */
  function Filter<T(!new)>(s: seq<T>, f: T -> bool): (r: seq<T>)
    ensures |r| <= |s|
    ensures forall x :: x in r <==> x in s && f(x)
    ensures multiset(r) <= multiset(s)
  {
    if |s| == 0 then []
    else
      var rest := Filter(s[1..], f);
      assert s == [s[0]] + s[1..];
      (if f(s[0]) then [s[0]] else []) + rest
  }

  /** Appending an element that satisfies `f` to a sequence in which none
      does makes the new element the first match. */
  lemma FirstWhereAppend<T>(s: seq<T>, x: T, f: T -> bool)
    requires FirstWhere(s, f).None? && f(x)
    ensures FirstWhere(s + [x], f) == Some(|s|)
  {
    var t := s + [x];
    var r := FirstWhere(t, f);
    assert t[|s|] == x;
    assert r.Some?;
    assert forall j :: 0 <= j < |s| ==> t[j] == s[j] && !f(t[j]);
  }

  /** Changing an element in a way that keeps whether it satisfies `f`
      keeps the first match where it was. */
  lemma FirstWhereUpdate<T>(s: seq<T>, i: nat, x: T, f: T -> bool)
    requires i < |s| && f(x) == f(s[i])
    ensures FirstWhere(s[i := x], f) == FirstWhere(s, f)
  {
    var r := FirstWhere(s[i := x], f);
    var q := FirstWhere(s, f);
    assert forall j :: 0 <= j < |s| ==> f(s[i := x][j]) == f(s[j]);
    if r.Some? && q.Some? {
      assert r.value == q.value;
    }
  }

  // ---------------------------------------------------------------------
  // Records as `encoding/json` writes them in replies

  /** The text of the generic store error. */
  const DbError := "db error"

  /** A document id read into a string field: an ObjectID becomes its hex
      text, and an id the store never assigned is the empty string. */
  function IdJson(id: DocId): (j: Json)
    ensures id.ObjectId? ==> j == JObjectIdHex(id.serial)
    ensures id.NoObjectId? ==> j == JString("")
  {
    match id
    case ObjectId(n) => JObjectIdHex(n)
    case NoObjectId => JString("")
  }

  /** A Go slice as `encoding/json` writes it: `null` when it was never
      allocated, else an array. In the records the service writes a list is
      empty only when its slice was never allocated (a coinbase's inputs, a
      chain with no block), so an empty list is written `null`. */
  function SliceJson(items: seq<Json>): (j: Json)
    ensures |items| == 0 <==> j == JNull
    ensures |items| > 0 ==> j.JArray? && j.items == items
  {
    if |items| == 0 then JNull else JArray(items)
  }

  function InputJson(i: TxInput): Json {
    JObject(map["utxo_id" := IdJson(i.utxoId), "index" := JNumber(i.index as real)])
  }

  function OutputJson(o: TxOutput): Json {
    JObject(map["owner_wallet" := JString(o.owner), "amount" := JNumber(o.amount)])
  }

  /** A transaction with the field names of its JSON tags. */
  function TxJson(t: Tx): (j: Json)
    ensures j.JObject?
    ensures j.fields.Keys == {"id", "sender_wallet", "receiver_wallet", "amount", "note", "timestamp",
                              "sender_public_key", "signature", "inputs", "outputs", "type", "status"}
    ensures |t.inputs| > 0 ==> j.fields["inputs"].JArray? && |j.fields["inputs"].items| == |t.inputs|
    ensures |t.outputs| > 0 ==> j.fields["outputs"].JArray? && |j.fields["outputs"].items| == |t.outputs|
    ensures j.fields["amount"] == JNumber(t.amount) && j.fields["timestamp"] == JTime(t.timestamp)
  {
    JObject(map[
      "id" := JString(t.id),
      "sender_wallet" := JString(t.sender),
      "receiver_wallet" := JString(t.receiver),
      "amount" := JNumber(t.amount),
      "note" := JString(t.note),
      "timestamp" := JTime(t.timestamp),
      "sender_public_key" := JString(t.senderPubKey),
      "signature" := JString(t.signature),
      "inputs" := SliceJson(seq(|t.inputs|, k requires 0 <= k < |t.inputs| => InputJson(t.inputs[k]))),
      "outputs" := SliceJson(seq(|t.outputs|, k requires 0 <= k < |t.outputs| => OutputJson(t.outputs[k]))),
      "type" := JString(t.kind),
      "status" := JString(t.status)])
  }

  /** A block with the field names of its JSON tags; an empty Merkle root
      is omitted. */
  function BlockJson(b: Block): (j: Json)
    ensures j.JObject?
    ensures "merkle_root" in j.fields <==> b.merkleRoot != ""
    ensures j.fields.Keys - {"merkle_root"} == {"index", "timestamp", "transactions", "previous_hash", "nonce", "hash"}
    ensures j.fields["index"] == JNumber(b.index as real) && j.fields["hash"] == JString(b.hash)
    ensures |b.txs| > 0 ==> j.fields["transactions"].JArray? && |j.fields["transactions"].items| == |b.txs|
  {
    var fields := map[
      "index" := JNumber(b.index as real),
      "timestamp" := JTime(b.timestamp),
      "transactions" := SliceJson(seq(|b.txs|, k requires 0 <= k < |b.txs| => TxJson(b.txs[k]))),
      "previous_hash" := JString(b.previousHash),
      "nonce" := JNumber(b.nonce as real),
      "hash" := JString(b.hash)];
    JObject(if b.merkleRoot == "" then fields else fields["merkle_root" := JString(b.merkleRoot)])
  }

  /** A list of blocks, `null` when nothing was appended to it. */
  function BlockList(bs: seq<Block>): (j: Json)
    ensures |bs| == 0 <==> j == JNull
    ensures |bs| > 0 ==> j.JArray? && |j.items| == |bs| && forall k :: 0 <= k < |bs| ==> j.items[k] == BlockJson(bs[k])
  {
    SliceJson(seq(|bs|, k requires 0 <= k < |bs| => BlockJson(bs[k])))
  }
}
