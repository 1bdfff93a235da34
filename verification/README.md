# Crypto wallet ledger model

A Dafny model of the ledger engine of the crypto-wallet service: a Go
backend that keeps wallets, unspent transaction outputs (UTXOs), pending
and confirmed transactions and a proof-of-work chain in MongoDB, and a
React frontend that signs users in and shows their figures.

The model replaces each MongoDB collection with an in-memory sequence in
store order (`Store.Db`). Each HTTP handler becomes a function or method
from a request and a store to a reply and a new store (`Store.Handled`).
The parts of the backend that are modelled are:

- **UTXO manager.** Balance summation and greedy coin selection (`UtxoManager`, `Ledger`).
- **Transactions.** The history filter, and creation of a signed pending transfer with its receiver and change outputs (`Transactions`).
- **Mining.** The coinbase reward, block assembly, the nonce search, and the replay of the pending pool against the unspent outputs (`Mining`).
- **Chain.** The Merkle root, the hash preimage, the difficulty rule and block linkage (`Merkle`, `Pow`, `Validation`).
- **Zakat.** The per-wallet run and the all-wallets scheduler (`Zakat`, `Scheduler`).
- **Wallet handlers and faucet** (`Wallet`).
- **Report aggregations** (`Reports`).
- **Routes.** The route table and its token guard, the self-service zakat handler and the block-detail stub (`Routes`).
- **Accounts.** The registration OTP, registration and login (`Accounts`).
- **Profile.** Profile reads and updates, where an e-mail change is gated by an OTP (`Profile`).
- **CORS.** The CORS middleware (`Cors`).

The frontend parts are:

- the two-slot browser session (`Session`);
- the HTTP client's bearer-token interceptor (`Client`);
- the route guard (`Router`);
- the figures and forms of the dashboard, reports, beneficiaries and block explorer pages (`Dashboard`, `ReportsView`, `Beneficiaries`, `BlockExplorer`).

Other foreign code becomes a parameter about which nothing is assumed:

- SHA-256, hex and UTF-8 encoding (`Hashing.Primitives`);
- bcrypt, key generation, private-key encryption and token signing;
- the clock, randomness, and the ids the store assigns.

Amounts are Dafny `real`s.

## Model

| member | source | states |
|---|---|---|
| Ledger.SumPermutation | backend/internal/utxo/manager.go:20-28 | The total of a collection of outputs does not depend on the order the store returns them in. |
| Ledger.BalanceInsert | backend/internal/api/block_handlers.go:185-202 | Inserting an output raises its owner's balance by its amount when it is unspent and leaves every other wallet's balance unchanged. |
| Ledger.GreedyCoverMinimal | backend/internal/utxo/manager.go:41-53 | The greedy prefix is the shortest non-empty prefix that reaches the target: every shorter one falls short, and it falls short itself only when it is the whole sequence. |
| Ledger.GreedyCoverFunded | backend/internal/utxo/manager.go:41-53 | With no negative amounts, the greedy prefix covers the target exactly when all outputs together do. |
| Ledger.GreedyCoverUnique | backend/internal/utxo/manager.go:41-53 | Any non-empty prefix that covers the target while every shorter prefix falls short is the greedy prefix. |
| UtxoManager.GetBalance | backend/internal/utxo/manager.go:12-29 | The balance is the sum of the decoded outputs when every document decodes; a corrupt document gives an error and never a partial sum. |
| UtxoManager.BalanceOrderIndependent | backend/internal/utxo/manager.go:14-28 | Two cursors that are permutations of each other give the same balance. |
| UtxoManager.BalanceOfStore | backend/internal/utxo/manager.go:14-28 | On a clean store, the balance a wallet reads is the sum of its unspent outputs. |
| UtxoManager.SelectUtxosForAmount | backend/internal/utxo/manager.go:31-54 | On success the choice is a non-empty prefix of the cursor that covers the amount, every shorter prefix falls short, and the change is the excess, which is never negative. On failure no prefix before the first corrupt document covers the amount. An empty cursor fails for every amount. On a clean cursor with no negative amounts, success holds exactly when the outputs together cover the amount. |
| Transactions.GetTxHistory | backend/internal/api/tx_handlers.go:28-55 | Exactly the stored transactions the wallet sent or received, each no more often than stored. |
| Transactions.InputsOf | backend/internal/api/tx_handlers.go:116-119 | One input per chosen output, naming its id and index, in selection order. |
| Transactions.OutputsOf | backend/internal/api/tx_handlers.go:121-126 | The receiver's output for the amount comes first. A second output, holding the sender's change, exists exactly when the change is positive. The outputs are worth the amount plus the positive change. |
| Transactions.SignAndQueue | backend/internal/api/tx_handlers.go:84-149 | A 200 reply happens exactly when the sender is found, the signature is made and verifies, and the pending insertion succeeds; only then is one pending transfer appended to the pool. A failed insertion gives 500 "db error". Every other reply leaves the store unchanged. |
| Transactions.CreateTransaction | backend/internal/api/tx_handlers.go:57-150 | In order: a bind failure, an unknown receiver (400, before any selection), and insufficient balance (400) each leave the store unchanged. A failed output query gives that 400 too, and so does an undecodable output met before the amount is covered. Otherwise the greedy prefix of the sender's outputs is signed and queued, with a failed pending insertion answered 500 "db error". |
| Transactions.SelectionIsGreedy | backend/internal/api/tx_handlers.go:73-78 | The manager's selection succeeds exactly when the greedy prefix of the outputs in front of the first undecodable document covers the amount, and then the selection is that prefix. |
| Transactions.SelectionOnStore | backend/internal/utxo/manager.go:31-54 | On the service's store, where every output decodes, the selection is the greedy prefix of the sender's unspent outputs. |
| Transactions.CorruptOutputRefuses | backend/internal/utxo/manager.go:41-45 | An undecodable first output makes the selection empty, so the transfer is refused whatever follows it. |
| Mining.LastBlock | backend/internal/api/block_handlers.go:58-61 | The last block is absent exactly when there are no blocks; otherwise it is a stored block of greatest index. |
| Mining.AssembleBlock | backend/internal/api/block_handlers.go:93-111 | The block holds the coinbase followed by every pending transaction, has index 0 and an empty previous hash on an empty chain (else last index + 1 and the last hash), and carries the Merkle root of its transactions. |
| Mining.AssembledBlockLinks | backend/internal/blockchain/validation.go:9-20 | A block assembled on the last block passes the linkage check against it, whatever nonce and hash it is given. |
| Mining.MarkFirstKeys | backend/internal/api/block_handlers.go:172-183 | Spending an unspent output removes exactly one copy of its key from the unspent keys. |
| Mining.MarkFirstTotal | backend/internal/api/block_handlers.go:172-183 | Spending an unspent output lowers the unspent total by its amount. |
| Mining.MarkFirstBalance | backend/internal/api/block_handlers.go:172-183 | Spending an unspent output lowers its owner's balance, and no one else's, by its amount. |
| Mining.SpendAllKeys | backend/internal/api/block_handlers.go:172-183 | Spending a list of unspent outputs removes exactly their keys. |
| Mining.SpendAllTotal | backend/internal/api/block_handlers.go:172-183 | Spending a list of unspent outputs lowers the unspent total by their sum. |
| Mining.SpendAllBalance | backend/internal/api/block_handlers.go:172-183 | Spending outputs that share one owner lowers that owner's balance by their sum and no other balance. |
| Mining.Inputs | backend/internal/api/block_handlers.go:138-165 | The miner's inputs are unspent outputs of the sender whose keys are all among the store's unspent keys. |
| Mining.Pay | backend/internal/api/block_handlers.go:185-202 | After the spent store come a fresh unspent output for the receiver of the amount and, only for positive change, one for the sender of the change. |
| Mining.PayTotal | backend/internal/api/block_handlers.go:185-202 | The minted outputs add the amount plus the positive change to the unspent total. |
| Mining.PayKeys | backend/internal/api/block_handlers.go:185-202 | The minted outputs add exactly the receiver's key and, for positive change, the sender's change key. |
| Mining.PayBalance | backend/internal/api/block_handlers.go:185-202 | The receiver's balance rises by the amount and the sender's by the positive change. |
| Mining.ApplyTxSkip | backend/internal/api/block_handlers.go:167-170 | A skipped transaction changes nothing and is skipped only when the sender's balance is below the amount. With no negative outputs the converse holds too. |
| Mining.ApplyTxProcessed | backend/internal/api/block_handlers.go:172-206 | A processed transaction is confirmed unchanged otherwise. It spends exactly its greedy inputs, whose sum is the amount plus the non-negative change, and mints the receiver's output and the positive change. |
| Mining.ApplyTxKeys | backend/internal/api/block_handlers.go:172-202 | A processed transaction removes its inputs' keys from the unspent keys and adds the keys of the minted outputs. |
| Mining.ApplyTxConserves | backend/internal/api/block_handlers.go:172-202 | The value spent by a processed transaction equals the value it mints, so the unspent total is unchanged. |
| Mining.ApplyTxBalances | backend/internal/api/block_handlers.go:172-202 | A processed transaction lowers the sender's balance by its amount, raises the receiver's by it, and leaves every other balance unchanged. |
| Mining.ApplyTxFlow | backend/internal/api/block_handlers.go:137-207 | One step of the replay moves each balance by the net flow of the transaction it confirms, or not at all. |
| Mining.ApplyAllConserves | backend/internal/api/block_handlers.go:136-207 | Replaying the whole pending pool neither creates nor destroys value. |
| Mining.ApplyAllBalances | backend/internal/api/block_handlers.go:136-207 | After the replay, each wallet's balance has moved by the net flow of the confirmed transactions. |
| Mining.ApplyAllConfirmed | backend/internal/api/block_handlers.go:204-206 | Every confirmed transaction is a pending one stamped confirmed, and none is confirmed more often than it was queued. |
| Mining.MinedBodyHasNoTxCount | backend/internal/api/block_handlers.go:222-230 | The reply has no `tx_count` field. Its `tx_in_block` is the pool size plus one and its `user_tx_mined` is the pool size, skipped transactions included. |
| Mining.UnreadLastForks | backend/internal/api/block_handlers.go:58-108 | When the read of the last block fails on a non-empty chain, the mined block restarts at index 0 with no previous hash and does not link onto the real last block. |
| Mining.MinePending | backend/internal/api/block_handlers.go:44-231 | An empty miner gives 401. A failed read of the pending pool, a failed block insertion and a failed reward insertion each give their 500, with the store as far as it got. Otherwise the block holds a hash meeting the difficulty. It links onto the last block when reading that block succeeds; when the read fails, the block has index 0 and no previous hash. The reward output is minted, the pool is replayed, the coinbase and the confirmed transactions are recorded, the pool is emptied, and the unspent total grows by exactly the mining reward. |
| Mining.GetBlocks | backend/internal/api/block_handlers.go:22-40 | A failed query gives 500 "db error". Otherwise the reply's `blocks` holds, in cursor order, one encoded block per document that decodes, and is null exactly when none does. |
| Mining.BlocksInCursorOrder | backend/internal/api/block_handlers.go:22-39 | On a cursor where everything decodes, the reply lists every block in the index order of the query, each as often as stored. |
| Mining.CorruptBlockSkipped | backend/internal/api/block_handlers.go:31-37 | A document that does not decode leaves the reply exactly as if it were absent. |
| Store.TxJson | backend/internal/models/transaction.go:15-29 | A transaction is written under its twelve JSON names, with its amount, its time, and one entry per input and output. |
| Store.BlockJson | backend/internal/models/block.go:5-14 | A block is written under its JSON names, with `merkle_root` present exactly when the root is non-empty, and one entry per transaction. |
| Store.BlockList | backend/internal/api/block_handlers.go:30-39 | A list of blocks is null exactly when empty, else the blocks' encodings in order. |
| Merkle.Leaves | backend/internal/blockchain/merkle.go:16-20 | One leaf per transaction, in order, each the SHA-256 digest of the id, sender and receiver concatenated. |
| Merkle.Round | backend/internal/blockchain/merkle.go:22-35 | A round maps n nodes to ceil(n/2): each pair is hashed in order, and an odd last node is carried unchanged. |
| Merkle.MerkleRoot | backend/internal/blockchain/merkle.go:11-38 | No transactions give the empty root; one transaction gives the hex of its leaf with no further hashing. |
| Merkle.OddLeafCarried | backend/internal/blockchain/merkle.go:25-28 | With three transactions the root is H(H(l0 l1) l2), not the duplicate-last H(H(l0 l1) H(l2 l2)). |
| Merkle.RootIgnoresAmounts | backend/internal/blockchain/merkle.go:17-20 | The root commits only to each transaction's id, sender and receiver. |
| Pow.DifficultyMeaning | backend/internal/blockchain/pow.go:25-28 | A hash meets difficulty d exactly when it has at least d characters and the first d are '0'. |
| Pow.DifficultyZero | backend/internal/blockchain/pow.go:25-28 | Difficulty zero accepts every hash. |
| Pow.HashCoversHeaderOnly | backend/internal/blockchain/pow.go:13-23 | Blocks that agree on index, timestamp, previous hash, nonce and Merkle root hash alike. |
| Pow.MineBlock | backend/internal/blockchain/pow.go:30-41 | Only the nonce and the hash change. The nonce is the least one whose hash meets the difficulty, and the stored hash is that block's hash. |
| Pow.SolvableAtZero | backend/internal/blockchain/pow.go:30-41 | At difficulty zero the search always terminates, at nonce 0. |
| Validation.ValidateBlock | backend/internal/blockchain/validation.go:9-20 | A block is accepted exactly when there is no predecessor or it carries the predecessor's hash and the next index. A bad previous hash is reported before a bad index. |
| Zakat.ZakatOf | backend/internal/zakat/zakat.go:53-56 | For a positive balance the zakat is positive and below the balance, so over exact reals the "computed as 0" refusal cannot occur (see Floating point under Left out). |
| Zakat.ZakatQuery | backend/internal/zakat/zakat.go:25-29 | The run reads exactly the wallet's documents whose `spent` field is false. |
| Zakat.QueryFindsNothing | backend/internal/zakat/zakat.go:26-29 | Stored outputs record spending in `is_spent` and never have `spent`, so the query finds nothing on the service's own store. |
| Zakat.Spendable | backend/internal/zakat/zakat.go:61-69 | Only documents whose `_id` is an ObjectID can become inputs. |
| Zakat.SpendableAll | backend/internal/zakat/zakat.go:43-80 | When every document has an ObjectID, the spendable outputs are worth the computed balance. |
| Zakat.ZakatTx | backend/internal/zakat/zakat.go:86-112 | The transaction goes from the wallet to the zakat pool as a pending zakat deduction, with one input per chosen output. The pool's output comes first, and a change output exists exactly when the change is positive. The outputs are worth the inputs. |
| Zakat.Decide | backend/internal/zakat/zakat.go:39-84 | No documents give "zakat not due"; a non-positive balance gives its own refusal. Otherwise 2.5% of the balance is deducted from the greedy prefix of spendable outputs that covers it. The only other refusal, "not enough UTXOs", happens exactly when that greedy prefix falls short, and then all spendable outputs together fall short too. |
| Zakat.NotCoveredExactly | backend/internal/zakat/zakat.go:58-84 | With no negative amounts, "not enough UTXOs" happens exactly when the outputs with an ObjectID are worth less than the zakat, whatever the other documents' ids. |
| Zakat.RunZakatForWallet | backend/internal/zakat/zakat.go:18-131 | The run refuses exactly when the decision does. Otherwise it appends the zakat transaction to the stored transactions and raises the owner's running zakat total by the amount, and changes nothing else. |
| Zakat.InputsMinimal | backend/internal/zakat/zakat.go:61-80 | The inputs are the shortest prefix of the spendable outputs that covers the zakat. |
| Zakat.CoverAlwaysFound | backend/internal/zakat/zakat.go:53-84 | When every document has an ObjectID, a positive balance always covers its zakat, so "not enough UTXOs" is unreachable. |
| Zakat.RunOnStoreNeverDue | backend/internal/zakat/zakat.go:26-41 | Over what the query returns on the service's store, the run always refuses with "zakat not due". |
| Scheduler.Step | backend/internal/scheduler/zakat_scheduler.go:24-52 | A wallet that owes nothing changes nothing. One that owes queues exactly one pending deduction for the amount, and raises its first user's running zakat total by that amount; no other user and nothing else changes. |
| Scheduler.FoldTotals | backend/internal/scheduler/zakat_scheduler.go:23-53 | After the run, each user's running zakat total has grown by exactly the dues of the wallets whose first user it is. |
| Scheduler.RunZakatNow | backend/internal/scheduler/zakat_scheduler.go:14-55 | Only a failed read of the wallets is reported, and it changes nothing. |
| Scheduler.FoldQueuesDues | backend/internal/scheduler/zakat_scheduler.go:23-53 | The pool gains one pending deduction per owing wallet, in cursor order, each for 2.5% of that wallet's balance and sent to the configured zakat wallet. |
| Scheduler.FoldFrame | backend/internal/scheduler/zakat_scheduler.go:48-52 | The run touches only the pending pool and the users' running zakat totals. |
| Scheduler.NothingOwedNothingQueued | backend/internal/scheduler/zakat_scheduler.go:24-35 | When no wallet owes zakat (corrupt documents, balance errors or non-positive balances), the run changes nothing. |
| Scheduler.OwedOnStore | backend/internal/scheduler/zakat_scheduler.go:28-35 | On a clean store a wallet owes exactly 2.5% of its balance, and only when that balance is positive. |
| Routes.Dispatch | backend/internal/api/routes.go:11-48 | The first matching route decides: its handler runs when the route is public or the token is valid, and the guard refuses otherwise. A handler runs only for a matching route, and no route matches exactly when the reply is not-found (Gin's trailing-slash redirect aside, see Left out). |
| Routes.PublicRoutesOpen | backend/internal/api/routes.go:14-17 | The three authentication routes run their handlers without a token. |
| Routes.PublicRoutes | backend/internal/api/routes.go:14-21 | Exactly the three authentication routes are unguarded. |
| Routes.GuardHolds | backend/internal/api/routes.go:19-21 | Without a valid token only the authentication handlers can run. |
| Routes.FaucetUnrouted | backend/internal/api/routes.go:11-48 | No request ever runs the faucet handler. |
| Routes.ResolveWalletId | backend/internal/api/routes.go:59-66 | The wallet id is `wallet_id`, else `walletID`, else `wallet`, whichever comes first non-empty; it is empty only when all three are. |
| Routes.Classify | backend/internal/api/routes.go:76-93 | Exactly the four listed texts give 200 with the text as message; every other error gives 500 "failed to run zakat" with the text as details. |
| Routes.RunSelfZakatHandler | backend/internal/api/routes.go:58-107 | An empty wallet id gives 401. Store errors and refusals are classified and write nothing. A created transaction is stored and echoed, with the pending message, as the document it wrote (`Routes.ZakatTxJson`). |
| Routes.ZakatTxJson | backend/internal/zakat/zakat.go:102-119 | The echo carries the document's id, the ten fields of the created document, its time, one `utxo_id` entry per input and one entry per output. |
| Routes.RefusalReplies | backend/internal/api/routes.go:76-93 | Every refusal is answered 200, except the no-documents case, whose "zakat not due" is not in the list and gets 500. |
| Routes.DeadSoftErrors | backend/internal/api/routes.go:78-81 | Over exact reals, two entries of the soft list ("no UTXOs / no balance" and "computed as 0") are never produced (see Floating point under Left out). |
| Routes.RunSelfOnStore | backend/internal/api/routes.go:58-94 | On the service's own store every caller with a wallet id gets the 500 reply whose details say "zakat not due", and nothing is written. |
| Routes.GetBlockByID | backend/internal/api/routes.go:110-114 | The stub answers 200 with a message that is the fixed prefix followed by the id, and reads nothing. |
| Routes.BlockByIdInjective | backend/internal/api/routes.go:110-114 | Distinct ids give distinct replies. |
| Wallet.GetUtxos | backend/internal/api/wallet_handlers.go:54-75 | The listing holds exactly the documents of the cursor that decode; corrupt ones are skipped. |
| Wallet.GetUtxosOfStore | backend/internal/api/wallet_handlers.go:58-74 | On the store's cursor the listing is exactly the wallet's unspent outputs. |
| Wallet.BalanceMatchesUtxos | backend/internal/api/wallet_handlers.go:42-75 | When every document decodes, the balance shown is the total of the outputs listed; a corrupt document is skipped by the listing but fails the balance. |
| Wallet.BalanceReply | backend/internal/api/wallet_handlers.go:42-52 | 200 with the sum exactly when every document decodes, else 500 "balance error". |
| Wallet.GetWalletProfile | backend/internal/api/wallet_handlers.go:14-40 | An unknown wallet gives 404 and a balance error gives 500 with no profile. Success carries the owner's seven fields and the balance. |
| Wallet.UpdateBeneficiaries | backend/internal/api/wallet_handlers.go:81-99 | The first owner of the wallet has its list replaced wholesale; every other user and every other field is untouched. |
| Wallet.AdminFundWallet | backend/internal/api/admin_handlers.go:22-73 | A bad body or an unknown wallet leaves the store unchanged. Success inserts one unspent faucet output at index 0 for the wallet and amount, and one confirmed faucet transaction, both under the id "faucet-" + ObjectID. |
| Wallet.FundingMints | backend/internal/api/admin_handlers.go:39-66 | Funding raises the funded wallet's balance and the unspent total by the amount, leaves other balances alone, and gives the output and the transaction one id. |
| Reports.AggregateIsFilter | backend/internal/api/report_handlers.go:29-36 | The match-and-group pipeline yields the total and the count of the matching documents; none match gives zero and zero. |
| Reports.AggregatePermutation | backend/internal/api/report_handlers.go:29-36 | The totals do not depend on the order of the stored transactions. |
| Reports.GetReportsSummary | backend/internal/api/report_handlers.go:18-81 | An empty wallet id gives 401. Otherwise the six fields are sum and count over three sets: confirmed sent, confirmed received, and zakat deductions of any status. |
| Reports.ZakatCountedTwice | backend/internal/api/report_handlers.go:29-66 | A confirmed zakat deduction sent by the wallet adds its amount and one to both the sent and the zakat totals. |
| Accounts.Upsert | backend/internal/api/auth_handlers.go:237-250 | After the upsert the e-mail's record is the new one, and every other record is unchanged. A record is appended only when the e-mail had none. |
| Accounts.RequestOtp | backend/internal/api/auth_handlers.go:217-266 | A bad body gives 400 and a failed upsert gives 500, both writing nothing. Otherwise the store is the upsert of that e-mail's record, which holds six decimal digits denoting the draw, unused, expiring ten minutes later; the reply reports the mailer's error if any. |
| Accounts.RequestOtpKeepsOthers | backend/internal/api/auth_handlers.go:237-250 | Requesting a code for one e-mail leaves every other e-mail's record as it was. |
| Accounts.OtpRefusal | backend/internal/api/auth_handlers.go:56-94 | No refusal exactly when the code is redeemable: present, unexpired, equal and unused. Every refusal is one of the four texts. |
| Accounts.NewUser | backend/internal/api/auth_handlers.go:148-167 | A new user has the requested details, wallet id hex(SHA-256(public key hex)), a verified e-mail, no beneficiaries and zero zakat. |
| Accounts.Register | backend/internal/api/auth_handlers.go:39-213 | A refused code gives 400 with the refusal's text and writes nothing. A redeemable code is marked used even when the e-mail is then found taken (400 "email already registered"). With a free e-mail, each failing dependency gives its own 500, in order. When all succeed the new user and wallet are appended and the reply is the token and the user, or 500 when signing the token fails. |
| Accounts.ExpiryCheckedFirst | backend/internal/api/auth_handlers.go:66-94 | The checks run in order: an expired code is refused as expired whatever it is, and a used but valid code is refused as used. |
| Accounts.RegisterConsumesOtp | backend/internal/api/auth_handlers.go:96-113 | A second registration with the same code is refused as used, whatever happened to the first. |
| Accounts.RequestedOtpRedeemable | backend/internal/api/auth_handlers.go:231-250 | A code obtained from request-otp passes the registration checks until it expires. |
| Accounts.Login | backend/internal/api/auth_handlers.go:269-327 | An unknown e-mail or a wrong password gives 401 "invalid credentials"; success happens exactly when both are right and the token is signed. Login writes nothing. |
| Accounts.LoginIndistinguishable | backend/internal/api/auth_handlers.go:283-300 | An unknown e-mail and a wrong password get identical replies. |
| Accounts.RegisterThenLogin | backend/internal/api/auth_handlers.go:302-326 | After a successful registration, logging in with the same credentials returns the new user. |
| Text.ZeroPad6 | backend/internal/api/auth_handlers.go:233 | Six decimal digits that denote the number. |
| Text.IntToString | backend/internal/blockchain/pow.go:14-20 | The decimal rendering of an integer in the preimage: a leading minus exactly for negatives, then digits without leading zeros that denote the absolute value. |
| Text.NatToStringRoundTrip | backend/internal/blockchain/pow.go:14-20 | Reading the decimal rendering back gives the number. |
| Profile.GetProfile | backend/internal/api/profile_handlers.go:18-42 | An empty user id gives 401 and an unknown one gives 500. Success returns the fields of the user with that id. |
| Profile.UpdateProfile | backend/internal/api/profile_handlers.go:56-164 | 400 and 401 write nothing, and an unknown user gives 500. No requested change gives "no changes detected". A name or CNIC change is written as the revised user, or gives 500 when the write fails. An e-mail change without a code gives "OTP is required", with no unused matching record "Invalid OTP for this email", with an expired one "OTP has expired"; with a valid one the record is marked and the revised user is written. |
| Profile.UpdateIdempotent | backend/internal/api/profile_handlers.go:84-140 | Repeating a successful update reports "no changes detected" and writes nothing. |
| Profile.UpdateThenGet | backend/internal/api/profile_handlers.go:142-148 | After a successful update the profile shows each queued value. |
| Profile.RequestedOtpConfirmsChange | backend/internal/api/profile_handlers.go:108-125 | A code from request-otp for the new address confirms the change until it expires. |
| Profile.MarkMissesPending | backend/internal/api/profile_handlers.go:108-132 | The mark filter ignores `verified`, so with an earlier used record of the same code the checked record stays redeemable. |
| Profile.MarkHitsPending | backend/internal/api/profile_handlers.go:108-132 | With one record per e-mail, as request-otp keeps it, the record marked is the record checked, and it can no longer be redeemed. |
| Cors.Middleware | backend/internal/middleware/cors.go:9-35 | The origin is echoed only for the two allowed origins. The credential, header and method headers are always set and nothing else changes. OPTIONS aborts with 204 and every other verb continues. |
| Cors.Independence | backend/internal/middleware/cors.go:14-31 | The headers do not depend on the verb, and the abort decision does not depend on the origin. |
| Cors.Idempotent | backend/internal/middleware/cors.go:9-35 | Passing the middleware twice is passing it once. |
| Session.Init | frontend/src/context/AuthContext.tsx:30-33 | The first user is whatever the user slot holds. |
| Session.Mount | frontend/src/context/AuthContext.tsx:35-41 | Without a token the user is dropped whatever the slot says, and the slots are left alone. |
| Session.Login | frontend/src/context/AuthContext.tsx:43-52 | A failed request changes nothing; otherwise both slots are written and the user is set. |
| Session.Logout | frontend/src/context/AuthContext.tsx:54-58 | Both slots are removed and no user is shown. |
| Session.UseAuth | frontend/src/context/AuthContext.tsx:67-73 | Outside the provider it throws; inside it returns the provider's value. |
| Session.ReloadAfterLogin | frontend/src/context/AuthContext.tsx:28-52 | A reload after a login keeps the user exactly when the token was non-empty. |
| Session.LogoutIdempotent | frontend/src/context/AuthContext.tsx:54-58 | Logging out twice is logging out once, and a reload after it shows no user. |
| Session.ConsistentPreserved | frontend/src/context/AuthContext.tsx:30-58 | "A shown user has a token" survives mount, logout and any login with a non-empty token. |
| Client.BaseUrl | frontend/src/api/client.ts:3 | The build variable when set and non-empty, else the local backend. |
| Client.AnswerOf | frontend/src/api/client.ts:24-30 | A page sees success exactly for a 2xx reply, and sees the server's error text for an error reply, including the binder's text for a malformed body. |
| Client.BindTextShown | frontend/src/api/client.ts:24-30 | For a malformed body the page shows the binder's non-empty text, never its own fallback. |
| Client.TextOr | frontend/src/pages/Dashboard.tsx:107-110 | The server's text (an error, or an accepted request's message) when non-empty, else the page's fallback. |
| Client.Decorate | frontend/src/api/client.ts:13-21 | With a truthy token the request gets "Bearer " + token and keeps its other headers. Otherwise it goes out unchanged. |
| Client.TokenFollowsSession | frontend/src/api/client.ts:13-21 | After a login every request carries exactly that token; after a logout none gets one. |
| Client.DecorateIdempotent | frontend/src/api/client.ts:13-21 | Decorating twice is decorating once. |
| Router.PrivateRoute | frontend/src/router/router.tsx:26-30 | No user redirects to /login, replacing history; a user gets the child. |
| Router.Resolve | frontend/src/router/router.tsx:66-94 | "/" and unknown paths redirect to /register; /register and /login render; the eight application paths render only for a signed-in user. |
| Router.OneRedirectAtMost | frontend/src/router/router.tsx:68-93 | Following a redirect renders a page at once: there are no chains or loops. |
| Router.Rendered | frontend/src/router/router.tsx:68-93 | A page renders exactly when it is public, or it is an application page and a user is signed in. |
| Dashboard.Stats | frontend/src/pages/Dashboard.tsx:86-104 | With a wallet id the counters are the sizes of the pending-sent, sent and received filters; without one they are zero; pending never exceeds sent. |
| Dashboard.StatsOrderFree | frontend/src/pages/Dashboard.tsx:92-96 | The counters do not depend on the order of the history, and an empty history gives zeros. |
| Dashboard.LoadData | frontend/src/pages/Dashboard.tsx:69-114 | A rejected load changes only the error. A loaded one sets the balance (missing as 0) and the outputs (non-array as empty), and sets the counters unless a non-array history throws. |
| Dashboard.LoadAllOrNothing | frontend/src/pages/Dashboard.tsx:75-113 | A failed refresh leaves every figure as it was, and the error is cleared exactly on a complete load. |
| Dashboard.MineMessageNeverCounts | frontend/src/pages/Dashboard.tsx:129-133 | For every mining reply the message's transaction count shows "?". |
| Dashboard.SendEmailOtp | frontend/src/pages/Dashboard.tsx:173-196 | A request goes out exactly when the new address is non-empty and has "@"; otherwise only the error is set. |
| Dashboard.ConfirmEmailChange | frontend/src/pages/Dashboard.tsx:198-226 | A request goes out exactly when both inputs are non-empty. On success the shown e-mail becomes the new one and both inputs are cleared. |
| Dashboard.ConfirmCarriesCode | frontend/src/pages/Dashboard.tsx:198-217 | The service never refuses the page's change for want of a code, and the change touches neither name nor CNIC. |
| Dashboard.EmailChangeFlow | frontend/src/pages/Dashboard.tsx:173-226 | The address the page sends a code to, confirmed with the mailed code before it expires, becomes the stored e-mail, and the page then shows the stored address. |
| ReportsView.NumberOr0 | frontend/src/pages/Reports.tsx:181-184 | A number field reads as that number, and a missing field or one that is not a number reads as 0 (see Left out for non-numbers). |
| ReportsView.SignPrefix | frontend/src/pages/Reports.tsx:185-186 | "+" exactly when the net flow is not negative. |
| ReportsView.CountOr0 | frontend/src/pages/Reports.tsx:128-130 | A missing or null count shows as 0. |
| ReportsView.Plural | frontend/src/pages/Reports.tsx:162-164 | The suffix is empty exactly for a count of one. |
| ReportsView.FormatAmount | frontend/src/pages/Reports.tsx:72-73 | A number is rendered; anything else shows "0.0000". |
| ReportsView.FiguresOfSummary | frontend/src/pages/Reports.tsx:178-195 | The net flow and the activity are the report's filters combined. |
| ReportsView.ZakatChargedTwice | frontend/src/pages/Reports.tsx:181-184 | One confirmed zakat deduction lowers the net flow by twice its amount and raises the activity by two. |
| ReportsView.RunZakat | frontend/src/pages/Reports.tsx:44-69 | A refused run sets only the error. An accepted run sets the message and then the refetched summary, and its message survives a failed refetch. |
| ReportsView.RunZakatShows | frontend/src/pages/Reports.tsx:60-65 | A soft refusal shows as the green message; any other error shows the handler's generic error in red. |
| Beneficiaries.Initial | frontend/src/pages/Beneficiaries.tsx:11 | The profile's list, or empty. |
| Beneficiaries.Add | frontend/src/pages/Beneficiaries.tsx:14-18 | An empty input does nothing. Otherwise the input is appended after the kept entries, duplicates included, and cleared. |
| Beneficiaries.Remove | frontend/src/pages/Beneficiaries.tsx:59-61 | Exactly the entry at the position is deleted; an out-of-range position changes nothing. |
| Beneficiaries.AddThenRemove | frontend/src/pages/Beneficiaries.tsx:14-61 | Adding an entry and removing it again restores the list. |
| Beneficiaries.RemoveKeepsOrder | frontend/src/pages/Beneficiaries.tsx:59-61 | The remaining entries keep their order. |
| Beneficiaries.Save | frontend/src/pages/Beneficiaries.tsx:20-31 | The request carries the whole list; the message is the reply's message or the error. |
| Beneficiaries.SaveStoresList | frontend/src/pages/Beneficiaries.tsx:20-31 | After a save the owner's stored list is the page's list and a reload shows it. |
| BlockExplorer.Extract | frontend/src/pages/BlockExplorer.tsx:23-24 | The `blocks` array, else an array reply, else empty. |
| BlockExplorer.ExtractsReply | frontend/src/pages/BlockExplorer.tsx:22-24 | Given the `/blocks` reply for a chain, the page lists exactly its blocks in order, and nothing for the null list of an empty chain. |
| BlockExplorer.SortDescending | frontend/src/pages/BlockExplorer.tsx:69-71 | The copy is a permutation of the blocks, sorted by descending index. |
| BlockExplorer.ChainShownReversed | frontend/src/pages/BlockExplorer.tsx:69-71 | A chain sent in ascending index order is shown exactly reversed. |
| BlockExplorer.AtIndex | frontend/src/pages/BlockExplorer.tsx:69-71 | The blocks of one index are exactly the listed blocks carrying it. |
| BlockExplorer.InsertAtIndex | frontend/src/pages/BlockExplorer.tsx:69-71 | An inserted block goes in front of the blocks sharing its index and leaves the other indices' blocks as they were. |
| BlockExplorer.SortKeepsTies | frontend/src/pages/BlockExplorer.tsx:69-71 | The sort is stable: blocks of equal index, such as two index-0 blocks mined after failed reads of the last block, are shown in the order the reply listed them. |

## Left out

- **MongoDB and Gin plumbing.** Collections are in-memory sequences in store order. Connection handling, context cancellation and cursor closing are not modelled.
- **Cryptography.** Treated as opaque parameters: SHA-256, hex and UTF-8 encoding, bcrypt, ECDSA keys and signatures, AES encryption of the private key, and JWT signing and verification. Whether a token is valid is an input to `Routes.Dispatch`.
- **The environment.** The clock, the random OTP draw, fresh ObjectIDs, SMTP delivery and configuration loading are parameters. The mailer's error text is an input.
- **Floating point.** Amounts are exact reals. Go's `float64` rounding, `toFixed(4)` and the rendering of timestamps are not modelled; `toFixed` is an opaque `render` function. In `float64` a subnormal positive balance times 0.025 underflows to 0, so the "zakat computed as 0" refusal (zakat.go:53-56) can be reached there although it cannot over reals.
- **JSON text.** A time is kept as `JTime` and an ObjectID's hex text as `JObjectIdHex`: the RFC 3339 and hexadecimal renderings are not modelled.
- **Logging.** System and transaction logs, the logs handlers and the response interceptor's console output have no effect on replies or state.
- **Presentation.** Layout, sidebar, loading and busy flags are left out, along with the send, history, register, login, logs and wallet-profile pages (context only). So is the dashboard's one-time profile prefetch and its name/CNIC save button.
- **React concurrency.** State updates are applied in program order. Concurrent requests and stale closures are not modelled.
- **Store errors outside mining.** Find and decode errors are modelled where the handlers distinguish them: the UTXO cursors (the selection of `POST /api/tx` included), the wallet cursor, the block list, the pending insertion and the zakat driver. Elsewhere a lookup that fails to find is an `Option`.
- Transactions.GetTxHistory: the 500 reply on a failed `Find` and the skipping of undecodable transactions are not modelled; the history is read from a clean store.
- Wallet.GetUtxos: the 500 reply on a failed `Find` is not modelled; decode failures are. The result is the listing, not the reply: when no document decodes, the handler's nil slice is written as `"utxos": null` rather than an empty array (as `Store.BlockList` shows for blocks).
- Discarded write errors: the handlers ignore the errors of these writes and the model always applies them: Register's OTP mark (auth_handlers.go:97) and wallet insertion (auth_handlers.go:185; a failed one would leave a user without a wallet document), UpdateProfile's OTP mark (profile_handlers.go:128), the zakat run's user update (zakat.go:121), and both writes of the scheduler (zakat_scheduler.go:46, 49).
- ReportsView.NumberOr0: a truthy field that is not a number (a numeric string, `true`, an object) reads as 0, whereas `||` keeps it and the subtraction coerces it; the service's summary holds only numbers, so the case does not arise from the service.
- Wallet.GetWalletProfile: beneficiaries stored as a Go nil slice (an update body without the field) are written as `null`; the model keeps no nil/empty distinction and always writes an array.
- Wallet.UpdateBeneficiaries: the 500 reply on a failed `UpdateOne` (wallet_handlers.go:94-97) is not modelled; the update always succeeds.
- Wallet.AdminFundWallet: the 500 reply on a failed output insertion (admin_handlers.go:50-53) is not modelled; the handler is unreachable anyway because it is never routed.
- UtxoManager.GetBalance: the zero returned beside the error is not carried; an error has no value.
- Routes.Dispatch: Gin's default trailing-slash redirect is not modelled. The engine is built with its defaults (backend/cmd/server/main.go:24), so a registered path followed by `/` is answered 301 (307 for verbs other than GET) pointing at the bare path, before the token guard runs; the model answers not-found.
- Pow.MineBlock: the source loops forever when no nonce meets the difficulty. Termination is proved under the precondition that some nonce meets the difficulty; callers must establish it (`Mining.MinePending` passes it on, for the case where the pending pool is read and mining is reached), and only difficulty 0 is shown to satisfy it (`Pow.SolvableAtZero`).
- Mining.MinePending: the read of the last block is an input that either yields the block of greatest index or fails, whether from a store fault or an undecodable top block; the handler does not report it and mines a block of index 0. Store faults are a parameter that fails at most one of the three checked steps: the read of the pending pool, the block insertion and the reward insertion. The later, unchecked writes (spend updates, output and transaction inserts, pool deletion) always succeed. Two skips are not modelled: a transaction whose sender's output query fails is skipped (block_handlers.go:140-146), and undecodable pending and output documents are dropped (lines 74-76 and 149-151): the model holds pending transfers and outputs as decoded values, and every output query succeeds.
- Store.BlockJson: the block's `id` field, the hex of the ObjectID the store assigns on insertion, is not written, because blocks in the model carry no document id.
- Store.TxJson: `block_id` is never set by the handlers and is omitted when empty, so it is not written.
- Routes.RunSelfZakatHandler: the `txDoc == nil` branch (routes.go:96-101) is not modelled because the run never returns nil without an error.
- Router.Resolve: paths are matched literally, with no trailing-slash or case normalisation and no nested layout rendering.
- Session.Login: the `user` slot stores the serialised user, which is modelled as the user itself; JSON round-tripping is assumed faithful.

## Notes on the source

These behaviours of the code are stated as lemmas rather than corrected, because nothing in the repository says which side is intended.

- **The dashboard's mining message.** The dashboard reads `tx_count` from the mining reply, which carries `tx_in_block` and `user_tx_mined` instead. The message always shows "txs: ?" (`Mining.MinedBodyHasNoTxCount`, `Dashboard.MineMessageNeverCounts`).
- **Unreachable per-wallet zakat.**
  - The per-wallet zakat query filters on `spent`, but stored outputs record `is_spent`. On the service's own store the query finds nothing (`Zakat.QueryFindsNothing`).
  - The resulting "zakat not due" is not in the handler's soft-error list, so every run through `/api/zakat/run-self` answers 500 (`Routes.RunSelfOnStore`, `Routes.RefusalReplies`).
  - Over exact reals, two texts on that list are never produced (`Routes.DeadSoftErrors`). In `float64` the "computed as 0" text can be produced by a subnormal balance.
- **Zakat in the reports.** A confirmed zakat deduction counts both as sent and as zakat in the report, and the reports page subtracts both, so the net flow drops by twice its amount (`Reports.ZakatCountedTwice`, `ReportsView.ZakatChargedTwice`).
- **The Merkle root.** A comment in the Merkle root code speaks of duplicating the last node. The code carries an odd node up unchanged (`Merkle.OddLeafCarried`).
- **The faucet.** The faucet handler is never registered as a route (`Routes.FaucetUnrouted`).
- **Marking an e-mail OTP.** The profile update checks the OTP against an unused record but marks the first record with that e-mail and code, used or not (`Profile.MarkMissesPending`). With one record per e-mail, which request-otp maintains, the two coincide (`Profile.MarkHitsPending`).
- **Registration consumes the OTP.** Registration marks the OTP used before it checks whether the e-mail is taken, so a rejected attempt still consumes the code (`Accounts.RegisterConsumesOtp`).
- **No uniqueness check on e-mail changes.** The profile update does not check whether the new e-mail belongs to another user.
- **Empty chain.** An empty chain is sent as a null `blocks` list, which the block explorer shows as empty (`BlockExplorer.ExtractsReply`).
- **A non-array history.** A history that is not an array makes the dashboard's counting throw after the balance and outputs are set, and the generic error is then shown (`Dashboard.LoadData`).
