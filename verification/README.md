# Funds ledger: single-table entity codec and ledger services

A Dafny model of the back end of a small investment-fund platform. Five entity
kinds share one key-value table: funds, clients, client balances, transactions
and client-fund subscriptions. The services on top of that table do the
following:
- seed a fixed catalog of five funds;
- open a client with an initial grant of 500,000;
- take deposits;
- subscribe a client to a fund, charging the fund's minimum;
- cancel a subscription, refunding what was charged.

The model is organised as follows:

- `Store` (store.dfy): the table, a finite map from a `(pk, sk)` key to the
  item's attributes. It offers upsert, point lookup, delete, partition query
  with a sort-key prefix, and scan.
- `Keys` (keys.dfy): the key each entity is stored under, and the proofs that
  keys never collide and that each prefix selection picks exactly one kind.
- `Codec` (codec.dfy): the five entities and their `to_dynamo_item` /
  `from_dynamo_item` pairs. It covers required and optional attributes, the
  `completed` status default, and the `value or utcnow()` timestamp default.
- `Repository` (repository.dfy): the entities' static `save`, `get_*`,
  `get_all` and `delete` methods against an explicit table.
- `Services` (services.dfy): `initialize_default_funds`, `create_client`,
  `get_client`, `get_or_create_balance`, `update_balance`, `deposit`,
  `subscribe_to_fund` and `cancel_subscription`.
  - Each is a pure function from the table to its result and the table it
    leaves behind.
  - The writes happen in the order the source makes them, so a failure after a
    write keeps that write.
- `Scenario` (scenario.dfy): one concrete run from an empty table: seed the catalog, create a client, subscribe to fund "4".
- `Ledger` (ledger.dfy): the invariant the services keep, and the proof that it
  survives any sequence of calls. The invariant says every client has a readable
  balance that is never negative and equals the signed sum of the client's
  transaction items: SALDO_INICIAL, DEPOSITO and cancellation count plus,
  subscription counts minus. The calls covered are every write the HTTP views
  reach: seeding, creation, the balance read-or-create, deposit, subscribe and
  cancel. The read-or-create stores a zero balance for any id, even one no
  client has; such an orphan balance is allowed by the invariant. The two
  writes no view reaches, `update_balance` called directly and `Client.delete`,
  are outside it (see "Left out").

Amounts are whole cents, so 500,000 becomes `500_000 * 100`. Transaction ids,
which the source draws from `uuid4`, and the clock are parameters. A fresh id is
a hypothesis of the ledger lemmas, not a precondition of the operations.

## Model

| member | source | states |
|---|---|---|
| Keys.KeyOfInjective | funds/models.py:17-222 | Two entities share a `(pk, sk)` key exactly when they are the same kind with the same ids. |
| Keys.PartitionKeysDistinct | funds/models.py:73-222 | A client's client, balance, transaction and subscription items never share a key, and no fund key lies in a client partition. |
| Keys.FundKeyOutsideClients | funds/models.py:17-18 | A fund's partition key is never a client partition. |
| Keys.FundSelectionExact | funds/models.py:55-63 | A `FUND#` prefix on the partition key selects exactly the fund entities. |
| Keys.ClientSelectionExact | funds/models.py:259-268 | A `CLIENT#` prefix on both key parts selects exactly the client entities, never a balance, transaction or subscription. |
| Keys.TransactionQueryExact | funds/models.py:145-153 | Partition `CLIENT#c` with sort-key prefix `TRANSACTION#` selects exactly client c's transactions. |
| Keys.SubscriptionQueryExact | funds/models.py:186-194 | Partition `CLIENT#c` with sort-key prefix `SUBSCRIPTION#` selects exactly client c's subscriptions. |
| Store.Put | funds/dynamo_client.py:53-60 | The item is stored under its key, replacing any earlier one; every other key keeps its item. |
| Store.Get | funds/dynamo_client.py:62-74 | The lookup finds an item exactly when the key is stored, and returns the stored item. |
| Store.Delete | funds/dynamo_client.py:125-137 | The key is gone afterwards, deleting an absent key is no error, and every other key is unchanged. |
| Store.Query | funds/dynamo_client.py:76-97 | Returns exactly the items of the partition whose sort key begins with the prefix (every result page; see Left out). |
| Store.Scan | funds/dynamo_client.py:99-106 | Returns exactly the stored items (every result page; see Left out). |
| Codec.Stamp | funds/models.py:13 | An absent or empty timestamp becomes the clock; a non-empty one is kept. |
| Codec.EncodeFund | funds/models.py:15-40 | A fund is stored under `(FUND#id, FUND#id)` and decodes back to the same fund at any clock. |
| Codec.DecodeFund | funds/models.py:29-40 | Decoding succeeds exactly for items whose required attributes are present with the expected kind. Every required field is the stored attribute. The description is the stored text, or None when absent or NULL. The creation time is the stored one, or the clock when absent, NULL or empty. |
| Codec.EncodeBalance | funds/models.py:71-86 | A balance is stored under `(CLIENT#id, BALANCE)` and decodes back to the same balance. |
| Codec.DecodeBalance | funds/models.py:80-86 | Decoding succeeds exactly when `client_id` and `balance` are present with the expected kind. Both fields are the stored ones. The update time is the stored one, or the clock when absent, NULL or empty. |
| Codec.EncodeTransaction | funds/models.py:111-138 | A transaction is stored under `(CLIENT#cid, TRANSACTION#tid)` and decodes back to the same transaction. |
| Codec.DecodeTransaction | funds/models.py:128-138 | Decoding succeeds exactly for items whose required attributes are present with the expected kind. The three ids, the amount and the kind are the stored ones. A missing status reads as `completed`, a stored NULL as None, and a stored text as itself. The creation time is the stored one, or the clock when absent, NULL or empty. |
| Codec.EncodeSubscription | funds/models.py:162-179 | A subscription is stored under `(CLIENT#cid, SUBSCRIPTION#fid)` and decodes back to the same subscription. |
| Codec.DecodeSubscription | funds/models.py:172-179 | Decoding succeeds exactly for items whose required attributes are present with the expected kind. `subscription_date` is required, so an item without it fails; a NULL or empty date becomes the clock, any other is the stored one. The ids and the amount are the stored ones. |
| Codec.EncodeClient | funds/models.py:219-242 | A client is stored under `(CLIENT#id, CLIENT#id)` and decodes back to the same client. |
| Codec.DecodeClient | funds/models.py:232-242 | Decoding succeeds exactly for items whose required attributes are present with the expected kind. The id, name, surname and city are the stored ones. Email and phone are the stored text, or None when absent or NULL. The creation time is the stored one, or the clock when absent, NULL or empty. |
| Repository.Lookup | funds/models.py:47-53 | An absent key reads as None; a stored item reads as its decoding, or fails when the item does not decode. |
| Repository.DecodeAll | funds/models.py:58-63 | A listing succeeds exactly when every selected item decodes, and then holds exactly their decodings. |
| Repository.FundSave | funds/models.py:42-45 | After `save`, `get_by_id` returns the fund, and every other key is unchanged. |
| Repository.FundGetById | funds/models.py:47-53 | No fund item reads as None; a stored one reads successfully exactly when it decodes. |
| Repository.FundGetAll | funds/models.py:55-63 | Succeeds exactly when every item under a `FUND#` partition decodes, and then returns exactly those funds. |
| Repository.BalanceSave | funds/models.py:88-91 | After `save`, `get_by_client_id` returns the balance, and every other key is unchanged. |
| Repository.BalanceGetByClientId | funds/models.py:93-99 | No balance item reads as None; a stored one reads successfully exactly when it decodes. |
| Repository.TransactionSave | funds/models.py:140-143 | The transaction is filed under its key and decodes back to itself; every other key is unchanged. |
| Repository.TransactionsByClientId | funds/models.py:145-153 | Returns exactly the decoded transaction items of the client's partition; it fails exactly when one of them does not decode. |
| Repository.SubscriptionSave | funds/models.py:181-184 | After `save`, `get_by_client_and_fund` returns the subscription, and every other key is unchanged. |
| Repository.SubscriptionsByClientId | funds/models.py:186-194 | Returns exactly the decoded subscription items of the client's partition; it fails exactly when one of them does not decode. |
| Repository.SubscriptionGetByClientAndFund | funds/models.py:196-202 | No subscription item reads as None; a stored one reads successfully exactly when it decodes. |
| Repository.SubscriptionDelete | funds/models.py:204-207 | Afterwards the pair has no subscription, and every other item is untouched. |
| Repository.ClientSave | funds/models.py:244-248 | After `save`, `get_by_id` returns the client, and every other key is unchanged. |
| Repository.ClientGetById | funds/models.py:250-257 | No client item reads as None; a stored one reads successfully exactly when it decodes. |
| Repository.ClientGetAll | funds/models.py:259-268 | Succeeds exactly when every item with `CLIENT#` on both key parts decodes, and then returns exactly those clients. |
| Repository.ClientDelete | funds/models.py:270-274 | Afterwards the client is gone, and every other item is untouched. |
| Services.InitializeDefaultFunds | funds/services.py:9-63 | Reports as many funds as the catalog holds, and touches no key outside the catalog's fund keys. |
| Services.CatalogIds | funds/services.py:11-57 | The catalog has five funds, with ids "1" to "5" in that order. |
| Services.DefaultCatalog | funds/services.py:11-57 | The five catalog funds ask for minimums of 75,000, 125,000, 50,000, 250,000 and 100,000, each positive and no larger than its maximum. |
| Services.SaveFundsKeepsLast | funds/services.py:59-61 | After saving a list of funds, each key holds the last fund of the list with that id. |
| Services.InitializeWritesCatalog | funds/services.py:59-61 | After seeding, every catalog fund reads back by its id at any clock. |
| Services.CatalogKeysStable | funds/services.py:11-57 | The catalog's fund keys do not depend on the seeding time. |
| Services.InitializeIdempotent | funds/services.py:59-63 | Seeding an already seeded table yields the same table as seeding once with the later clock. |
| Services.CreateClient | funds/services.py:70-94 | Creation fails exactly when the client key is already stored, and a failure writes nothing. |
| Services.CreateClientRefusesExisting | funds/services.py:70-75 | An existing, readable client makes creation fail with "already exists" and no write. |
| Services.CreateClientWrites | funds/services.py:77-94 | On success it writes the client, a balance of 500,000 and one SALDO_INICIAL transaction of 500,000 against INITIAL_BALANCE. Those three keys are the only ones added, and nothing else changes. |
| Services.GetClient | funds/services.py:114-126 | A missing client is "not found". A stored client that decodes is returned, and a success is always that decoding; a stored item that does not decode is a `Malformed` failure. |
| Services.CreateThenGetClient | funds/services.py:78-79 | A created client is then found by `get_client` at any clock. |
| Services.GetOrCreateBalance | funds/services.py:140-146 | A stored balance is returned with no write. A missing one is created at 0 and stored. Either way the returned balance is the one stored afterwards, and only the balance key can change. |
| Services.UpdateBalance | funds/services.py:149-153 | The balance then reads back with the new value; nothing else changes. |
| Services.SettleReadsBack | funds/services.py:180-191 | After the closing balance write and transaction write, both read back at any clock. |
| Services.Deposit | funds/services.py:156-207 | Every failure leaves the table unchanged. |
| Services.DepositGuards | funds/services.py:159-171 | A missing client is refused first, then a non-positive amount; with a readable client, a positive amount and a readable or absent balance, the deposit succeeds. |
| Services.DepositCredits | funds/services.py:173-191 | On success the new balance is the prior balance (0 if none) plus the amount, and one DEPOSITO transaction of the amount is written against DEPOSIT. Only those two keys change. |
| Services.Enroll | funds/services.py:236-286 | A refusal after the balance read writes nothing. |
| Services.EnrollGuards | funds/services.py:236-273 | Enrolment succeeds exactly when the pair has no subscription and the balance covers the minimum. A shortfall reports the minimum, the balance and their difference. |
| Services.EnrollCharges | funds/services.py:275-286 | A successful enrolment stores a subscription for the minimum, lowers the balance by it and records one subscription transaction. Only those three keys change. |
| Services.Subscribe | funds/services.py:211-286 | A failure writes nothing, except the zero balance that `get_or_create_balance` may store for an existing client that had none. |
| Services.SubscribeGuards | funds/services.py:214-273 | A missing client, then a missing fund, are refused with no write. A duplicate is reported only for a stored pair. Insufficient funds reports the fund minimum as the required amount, the prior balance as current, and a positive missing amount. |
| Services.SubscribeSucceedsWhen | funds/services.py:214-263 | Subscribing succeeds exactly when the client and fund are stored and readable, the pair has no subscription, and the balance is at least the minimum (equality suffices). |
| Services.SubscribeRefusesDuplicate | funds/services.py:236-254 | With a readable client, a readable fund, a stored readable balance and a readable subscription for the pair, subscribing is refused as a duplicate and writes nothing. (With no stored balance, the zero balance written first would stay.) |
| Services.SubscribeCharges | funds/services.py:229-286 | On success it charges exactly the fund's `min_amount`. It stores that subscription, sets the balance to the prior balance minus it, and writes one subscription transaction. Only those three keys change. |
| Services.SubscribeEnrolls | funds/services.py:222-237 | A successful subscription is an enrolment, at the prior balance, on the table the balance read leaves. |
| Services.Refund | funds/services.py:327-335 | The refund succeeds exactly when the balance is readable or absent, and a failure writes nothing. |
| Services.RefundCredits | funds/services.py:327-335 | On success it adds the amount to the prior balance and writes one cancellation transaction of it. Only the balance and that transaction change. |
| Services.CancelSubscription | funds/services.py:306-335 | A failure writes nothing, except a delete already made when the balance then proves unreadable. |
| Services.DeleteKeepsBalance | funds/services.py:325-328 | Deleting a subscription does not change what the balance read returns. |
| Services.CancelGuards | funds/services.py:309-322 | A missing fund, then a missing subscription, are refused with no write, and the client is never checked. With a readable fund, subscription and balance the cancellation succeeds. |
| Services.CancelRefunds | funds/services.py:324-335 | On success it deletes the subscription, adds its stored amount back to the balance and writes one cancellation transaction of that amount. The balance, the transaction and the subscription key are the only keys that change. |
| Ledger.DecodedEffect | funds/models.py:128-138 | A stored transaction moves the balance by its decoded amount, signed by its kind. |
| Ledger.BalanceRead | funds/models.py:93-99 | A stored, well-formed balance item is exactly what the getter returns, holding the stored amount. |
| Ledger.LogAppend | funds/services.py:183-191 | Adding one fresh transaction to a client's log adds its signed amount to the sum. |
| Ledger.OwnerOfPartition | funds/models.py:73-74 | A client partition belongs to exactly its client; a fund partition belongs to none. |
| Ledger.EmptyLedger | funds/dynamo_client.py:19-45 | The freshly created, empty table, where every run starts before the catalog is seeded, satisfies the ledger invariant. |
| Ledger.LedgerKept | funds/services.py:156-335 | A client whose partition no call touches keeps balanced books. |
| Ledger.OthersKept | funds/services.py:156-335 | A call confined to client c's partition keeps the catalog, the ownership of every partition, and every other client's books. |
| Ledger.BooksAfterEntry | funds/services.py:177-191 | When one fresh transaction is written and the balance moves by its signed amount, staying non-negative, the books still balance. |
| Ledger.DepositBooks | funds/services.py:173-191 | After a deposit the depositor's balance still equals the signed sum of their log. |
| Ledger.DepositKeepsLedger | funds/services.py:156-207 | A deposit keeps the whole invariant. |
| Ledger.SubscribeEntry | funds/services.py:257-286 | A subscription charges a non-negative amount, the balance stays non-negative, and the new transaction subtracts exactly that amount. |
| Ledger.SubscribeBooks | funds/services.py:275-286 | After a subscription the subscriber's balance still equals the signed sum of their log. |
| Ledger.SubscribeKeepsLedger | funds/services.py:211-303 | A subscription, successful or not, keeps the whole invariant. |
| Ledger.SubscribedKeepsLedger | funds/services.py:257-303 | A successful subscription keeps the whole invariant. |
| Ledger.CancelBooks | funds/services.py:324-335 | After a cancellation the client's balance still equals the signed sum of their log. |
| Ledger.CancelKeepsLedger | funds/services.py:306-335 | A cancellation, successful or not, keeps the whole invariant. |
| Ledger.CancelledKeepsLedger | funds/services.py:324-335 | A successful cancellation keeps the whole invariant. |
| Ledger.CreateOpensBooks | funds/services.py:77-94 | A new client's balance of 500,000 is also the sum of their log. That log is exactly one transaction, the SALDO_INICIAL entry of 500,000. |
| Ledger.CreateKeepsLedger | funds/services.py:67-111 | A creation keeps the whole invariant. |
| Ledger.InitFundsKeepsLedger | funds/services.py:9-63 | Seeding the catalog keeps the invariant. |
| Ledger.ReadBalanceKeepsLedger | funds/services.py:140-146 | Reading a balance keeps the invariant. For an existing client it writes nothing; for an unknown id the zero balance it stores is an orphan the invariant allows, and nothing else changes. |
| Ledger.ApplyKeepsLedger | funds/services.py:9-335 | Every write the HTTP views reach, handed a fresh transaction id, keeps the invariant: seeding, creation, the balance read-or-create for any id, deposit, subscribe and cancel. |
| Ledger.RunKeepsLedger | funds/services.py:9-335 | Any sequence of those calls with fresh ids keeps the invariant. |
| Ledger.BooksBalance | funds/services.py:140-146 | Under the invariant, each client's balance reads back, is at least 0, and equals the signed sum of their transactions. |
| Ledger.RunBalancesBooks | funds/services.py:82-335 | From an empty table, after any run of the writes the HTTP views reach, with fresh ids, including balance reads of unknown ids, every client's balance is at least 0 and equals the signed sum of their transactions. |
| Ledger.SubscribedState | funds/services.py:276-286 | Right after a subscription, the fund, subscription and balance all read back, and the stored amount plus the new balance gives the old balance. |
| Ledger.SubscribeThenCancelRestores | funds/services.py:276-335 | Cancelling right after a successful subscription succeeds and refunds exactly what was charged. It leaves no subscription and restores the balance held before subscribing, whatever the two clocks. |
| Ledger.SubscribeTwiceRejected | funds/services.py:236-254 | A second subscription to the same fund is refused as a duplicate and writes nothing, so the client is charged once. |
| Scenario.SeededCatalog | funds/services.py:9-63 | Seeding an empty table writes only fund keys, none in any client's partition, and fund "4" reads back with minimum 250,000. |
| Scenario.SeededThenCreated | funds/services.py:9-111 | After seeding and creating a client, the client, its balance and fund "4" read back, no subscription to fund "4" exists, and the balance is the opening grant. |
| Scenario.SeedCreateSubscribe | funds/services.py:59-286 | On a freshly seeded table, a new client can subscribe to fund "4" for its minimum of 250,000 and is left with 250,000 of the 500,000 grant. |

## Left out

- Notifications (funds/notifications.py) are left out. They only read the client and swallow every error, so they never change the table.
- The HTTP layer is left out: views, URL routing and serializer validation (funds/views.py, funds/urls.py, funds/serializers.py).
- The manual scripts under scripts/ are left out.
- Table creation and `update_item` in funds/dynamo_client.py are left out, because no modelled operation uses them. The boto3 transport is replaced by the `Store` map.
- `ClientServiceManager.get_all_clients` is not modelled separately. It returns `Client.get_all` (Repository.ClientGetAll) plus a count.
- Store calls are assumed to succeed. The source logs and re-raises every transport error from the store (funds/dynamo_client.py:58-60, 72-74, 95-97, 104-106, 121-123, 135-137). A call that fails after an earlier write would leave that write in place; for example, a subscription could be saved with the balance not yet charged (funds/services.py:277-286). Such partial writes are not modelled, so `Ledger.RunKeepsLedger` covers only runs in which every store call succeeds.
- Concurrency is left out, including the lost update on the balance's read-modify-write. Every call is an atomic step applied in sequence.
- `uuid4` and `datetime.utcnow()` are parameters. That an id is fresh is a hypothesis of the ledger lemmas (`FreshFor`, `FreshRun`). The source relies on uuid4 never repeating.
- Decimal amounts are unbounded integers of cents. The serializers' 15-digit, two-place limit on request amounts (funds/serializers.py:8-9, 16, 23, 31, 50, 55) is not modelled; the two-place limit is why whole cents represent every accepted amount exactly.
- Python raises when a stored item lacks a required attribute. The model returns a `Malformed` failure instead, and any writes made before that point stay in the table.
- Codec.DecodeFund (and the other decoders): an attribute of the wrong kind, such as a number where text is expected, is a decode failure. Python would pass the value through unchecked.
- Repository.FundGetAll, Repository.ClientGetAll, Repository.TransactionsByClientId, Repository.SubscriptionsByClientId: results are sets, not lists in scan order. A failure names every malformed key, where Python raises on the first one it meets.
- Repository.FundGetById, Repository.BalanceGetByClientId, Repository.ClientGetById, Repository.SubscriptionGetByClientAndFund: their own contracts state the absent case and when the read succeeds. The value read is stated by Repository.Lookup and by the save functions' read-back clauses.
- Services.Deposit, Services.Subscribe, Services.CancelSubscription: their own contracts state only what a failure writes. What a success computes is stated by the lemmas named after them in the table.
- Ledger.LedgerOk: the invariant asks more than balanced books. Every item in a client partition other than its balance must belong to a stored client, and every stored fund and subscription must hold a non-negative amount. Both hold from the empty table and are kept by every write the HTTP views reach. A balance item is exempt because reading the balance of an unknown id stores a zero balance under it.
- Services.UpdateBalance, Repository.ClientDelete: outside the ledger invariant, and either can break it when called directly: `update_balance` stores any amount, a negative one included, without a transaction, and `Client.delete` leaves the client's transactions and subscriptions without a client. The source calls `update_balance` only from deposit, subscribe and cancel (funds/services.py:180, 281, 330), which are covered, and never calls `Client.delete` (funds/models.py:270-274).
- Store.Scan, Store.Query: return every matching item. The source makes a single scan or query call and does not follow `LastEvaluatedKey`, so past the store's first result page (1 MB) the listings built on them return only part of the data. Paging is not modelled.
- Ledger.LogSum: sums the stored `amount` attribute of each transaction item, signed by its `transaction_type`. Ledger.DecodedEffect ties that to the decoded transaction.
