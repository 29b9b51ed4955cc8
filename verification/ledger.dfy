/**
 * The ledger the services keep for each client, stated over the table: the
 * balance item never goes negative and always equals the signed sum of the
 * client's transaction items. Operations are applied one after another, in the
 * order the service runs them; the invariant holds after any such sequence.
 */
module Ledger {
  import opened Wrappers
  import opened Store
  import opened Keys
  import opened Codec
  import opened Repository
  import opened Services

  // ----- Reading amounts off stored attributes -----

  /** The amount stored under `name`, or 0 when it is absent or not a number. */
  function AmountAttr(a: Attrs, name: string): int {
    if name in a && a[name].Num? then a[name].n else 0
  }

  /**
   * How a transaction moves its client's balance: the opening grant, deposits and
   * cancellations add their amount, a subscription subtracts it, and any other
   * kind leaves the balance alone.
   */
  function Effect(kind: string, amount: int): int {
    if kind == SubscriptionType then -amount
    else if kind == InitialGrantType || kind == DepositType || kind == CancellationType then amount
    else 0
  }

  /** The signed amount of a stored transaction item. */
  function ItemEffect(a: Attrs): int {
    if "transaction_type" in a && a["transaction_type"].Str? then Effect(a["transaction_type"].s, AmountAttr(a, "amount"))
    else 0
  }

  /** A transaction item that decodes to `tx` moves the balance by `tx`'s signed amount. */
  lemma DecodedEffect(it: Item, now: Timestamp, tx: Transaction)
    requires DecodeTransaction(it, now) == Success(tx)
    ensures ItemEffect(it.attrs) == Effect(tx.transactionType, tx.amount)
  {
  }

  /** The balance stored for client `c`, read as 0 when missing or malformed. */
  function StoredBalance(t: Table, c: string): int {
    if BalanceKey(c) in t then AmountAttr(t[BalanceKey(c)], "balance") else 0
  }

  /** A readable balance item is exactly what the balance getter and the balance read see. */
  lemma BalanceRead(t: Table, c: string, now: Timestamp)
    ensures (BalanceKey(c) in t && BalanceShape(ItemAt(t, BalanceKey(c))))
            <==> BalanceGetByClientId(t, c, now).Success? && BalanceGetByClientId(t, c, now).value.Some?
    ensures BalanceGetByClientId(t, c, now).Success? && BalanceGetByClientId(t, c, now).value.Some? ==>
              BalanceGetByClientId(t, c, now).value.value.balance == StoredBalance(t, c) == PriorBalance(t, c, now)
  {
  }

  /** A fund the getter returns carries its minimum in the stored item. */
  lemma FundRead(t: Table, fundId: string, now: Timestamp, fund: Fund)
    requires FundGetById(t, fundId, now) == Success(Some(fund))
    ensures FundKey(fundId) in t && AmountAttr(t[FundKey(fundId)], "min_amount") == fund.minAmount
  {
  }

  /** A subscription the getter returns carries its amount in the stored item. */
  lemma SubscriptionRead(t: Table, c: string, fundId: string, now: Timestamp, sub: Subscription)
    requires SubscriptionGetByClientAndFund(t, c, fundId, now) == Success(Some(sub))
    ensures SubscriptionKey(c, fundId) in t && AmountAttr(t[SubscriptionKey(c, fundId)], "amount") == sub.amount
  {
  }

  // ----- The transaction log -----

  /** The keys of client `c`'s transaction items. */
  function LogKeys(t: Table, c: string): (ks: set<Key>)
    ensures ks <= t.Keys
    ensures forall k :: k in ks <==> k in t && k.0 == ClientPartition(c) && TransactionPrefix <= k.1
  {
    set k | k in t && k.0 == ClientPartition(c) && TransactionPrefix <= k.1
  }

  /** The signed sum of the transaction items stored under `ks`. */
  ghost function LogSum(t: Table, ks: set<Key>): int
    requires ks <= t.Keys
    decreases ks
  {
    if ks == {} then 0
    else
      var k :| k in ks;
      ItemEffect(t[k]) + LogSum(t, ks - {k})
  }

  /** Any one item of the log can be taken out of the sum first. */
  lemma {:induction false} LogSumRemove(t: Table, ks: set<Key>, k: Key)
    requires ks <= t.Keys && k in ks
    ensures LogSum(t, ks) == ItemEffect(t[k]) + LogSum(t, ks - {k})
    decreases ks
  {
    var j :| j in ks && LogSum(t, ks) == ItemEffect(t[j]) + LogSum(t, ks - {j});
    if j != k {
      LogSumRemove(t, ks - {j}, k);
      LogSumRemove(t, ks - {k}, j);
      assert ks - {j} - {k} == ks - {k} - {j};
    }
  }

  /** The sum depends only on the items under `ks`. */
  lemma {:induction false} LogSumFrame(t: Table, t': Table, ks: set<Key>)
    requires ks <= t.Keys && ks <= t'.Keys
    requires forall k :: k in ks ==> t'[k] == t[k]
    ensures LogSum(t', ks) == LogSum(t, ks)
    decreases ks
  {
    if ks != {} {
      var j :| j in ks && LogSum(t, ks) == ItemEffect(t[j]) + LogSum(t, ks - {j});
      LogSumFrame(t, t', ks - {j});
      LogSumRemove(t', ks, j);
    }
  }

  /**
   * Appending one fresh transaction item to a client's log adds its signed
   * amount to the sum, when the rest of the log is untouched.
   */
  lemma LogAppend(t: Table, t': Table, c: string, txId: string)
    requires TransactionKey(c, txId) !in t && TransactionKey(c, txId) in t'
    requires forall k :: k in LogKeys(t', c) ==> k in LogKeys(t, c) || k == TransactionKey(c, txId)
    requires forall k :: k in LogKeys(t, c) ==> k in t' && t'[k] == t[k]
    ensures LogKeys(t', c) == LogKeys(t, c) + {TransactionKey(c, txId)}
    ensures LogSum(t', LogKeys(t', c)) == LogSum(t, LogKeys(t, c)) + ItemEffect(t'[TransactionKey(c, txId)])
  {
    var tk := TransactionKey(c, txId);
    TransactionQueryExact(c, TransactionId(c, txId));
    assert LogKeys(t', c) == LogKeys(t, c) + {tk};
    LogSumRemove(t', LogKeys(t', c), tk);
    assert LogKeys(t', c) - {tk} == LogKeys(t, c);
    LogSumFrame(t, t', LogKeys(t, c));
  }

  /** Only transaction keys carry the transaction prefix in a client's partition. */
  lemma LogKeyKinds(c: string, txId: string, fundId: string)
    ensures !(TransactionPrefix <= ClientKey(c).1)
    ensures !(TransactionPrefix <= BalanceKey(c).1)
    ensures !(TransactionPrefix <= SubscriptionKey(c, fundId).1)
    ensures TransactionPrefix <= TransactionKey(c, txId).1
  {
    TransactionQueryExact(c, ClientId(c));
    TransactionQueryExact(c, BalanceOf(c));
    TransactionQueryExact(c, SubscriptionId(c, fundId));
    TransactionQueryExact(c, TransactionId(c, txId));
  }

  // ----- Who owns a partition -----

  /** The client a partition key belongs to, when it is a client partition. */
  function PartitionOwner(pk: string): Option<string> {
    if ClientPrefix <= pk then Some(pk[|ClientPrefix|..]) else None
  }

  /** A client partition belongs to its client, and only to it; fund partitions belong to nobody. */
  lemma OwnerOfPartition(c: string, pk: string, f: string)
    ensures PartitionOwner(ClientPartition(c)) == Some(c)
    ensures PartitionOwner(pk).Some? ==> pk == ClientPartition(PartitionOwner(pk).value)
    ensures PartitionOwner(FundKey(f).0) == None
  {
    PrefixOfConcat(ClientPrefix, c);
    assert (ClientPrefix + c)[|ClientPrefix|..] == c;
    if ClientPrefix <= pk {
      assert pk == pk[..|ClientPrefix|] + pk[|ClientPrefix|..];
    }
    assert FundKey(f).0[0] == 'F';
    if ClientPrefix <= FundKey(f).0 {
      PrefixFirst(FundKey(f).0, ClientPrefix);
      assert false;
    }
  }

  // ----- The invariant -----

  /**
   * Every item in a client partition other than its balance item belongs to a
   * client that exists. A balance item may be orphaned: reading the balance of
   * an unknown id stores a zero balance without consulting the client.
   */
  ghost predicate Owned(t: Table) {
    forall k :: k in t && PartitionOwner(k.0).Some? && k.1 != BalanceSortKey ==> ClientKey(PartitionOwner(k.0).value) in t
  }

  /** Every stored fund asks for a minimum that is not negative. */
  ghost predicate CatalogOk(t: Table) {
    forall f :: FundKey(f) in t ==> AmountAttr(t[FundKey(f)], "min_amount") >= 0
  }

  /**
   * Client `c`'s books balance: a readable balance item, never negative, equal
   * to the signed sum of the client's transaction items; and every subscription
   * holds an amount that is not negative.
   */
  ghost predicate ClientLedger(t: Table, c: string) {
    && BalanceKey(c) in t && BalanceShape(ItemAt(t, BalanceKey(c)))
    && StoredBalance(t, c) >= 0
    && StoredBalance(t, c) == LogSum(t, LogKeys(t, c))
    && forall f :: SubscriptionKey(c, f) in t ==> AmountAttr(t[SubscriptionKey(c, f)], "amount") >= 0
  }

  /** The invariant the services keep: a sound catalog, no orphans, and every client's books balancing. */
  ghost predicate LedgerOk(t: Table) {
    && CatalogOk(t)
    && Owned(t)
    && forall c :: ClientKey(c) in t ==> ClientLedger(t, c)
  }

  /** The empty table satisfies the invariant. */
  lemma EmptyLedger()
    ensures LedgerOk(map[])
  {
  }

  /** A client with no client item has nothing but, at most, a balance stored in its partition. */
  lemma EmptyPartition(t: Table, c: string, k: Key)
    requires Owned(t) && ClientKey(c) !in t && k in t && k.1 != BalanceSortKey
    ensures k.0 != ClientPartition(c)
  {
    OwnerOfPartition(c, k.0, "");
  }

  /** A client whose partition is untouched keeps balanced books. */
  lemma LedgerKept(t: Table, t': Table, d: string)
    requires ClientLedger(t, d)
    requires forall k: Key :: k.0 == ClientPartition(d) ==> (k in t' <==> k in t) && (k in t ==> t'[k] == t[k])
    ensures ClientLedger(t', d)
  {
    assert LogKeys(t', d) == LogKeys(t, d);
    LogSumFrame(t, t', LogKeys(t, d));
  }

  /**
   * Writing only `c`'s balance, one transaction and one subscription keeps every
   * subscription amount of `c` non-negative, provided the written one is.
   */
  lemma SubscriptionAmountsKept(t: Table, t': Table, c: string, fundId: string, txId: string)
    requires forall f :: SubscriptionKey(c, f) in t ==> AmountAttr(t[SubscriptionKey(c, f)], "amount") >= 0
    requires OnlyKeysChanged(t, t', {SubscriptionKey(c, fundId), BalanceKey(c), TransactionKey(c, txId)})
    requires t'.Keys <= t.Keys + {SubscriptionKey(c, fundId), BalanceKey(c), TransactionKey(c, txId)}
    requires SubscriptionKey(c, fundId) in t' ==> AmountAttr(t'[SubscriptionKey(c, fundId)], "amount") >= 0
    ensures forall f :: SubscriptionKey(c, f) in t' ==> AmountAttr(t'[SubscriptionKey(c, f)], "amount") >= 0
  {
    forall f | SubscriptionKey(c, f) in t'
      ensures AmountAttr(t'[SubscriptionKey(c, f)], "amount") >= 0
    {
      PartitionKeysDistinct(c, txId, f);
      if f != fundId {
        KeyOfInjective(SubscriptionId(c, f), SubscriptionId(c, fundId));
      }
    }
  }

  /** Writes confined to keys of partition `pk` change nothing outside it. */
  lemma PartitionFrame(t: Table, t': Table, changed: set<Key>, pk: string)
    requires OnlyKeysChanged(t, t', changed) && t'.Keys <= t.Keys + changed
    requires forall k | k in changed :: k.0 == pk
    ensures OnlyPartitionChanged(t, t', pk)
  {
  }

  /**
   * An operation on client `c` that changes nothing outside `c`'s partition, and
   * leaves `c` existing, keeps the catalog, the ownership and every other
   * client's books.
   */
  lemma OthersKept(t: Table, t': Table, c: string)
    requires LedgerOk(t) && ClientKey(c) in t'
    requires OnlyPartitionChanged(t, t', ClientPartition(c))
    ensures CatalogOk(t') && Owned(t')
    ensures forall d :: d != c && ClientKey(d) in t' ==> ClientLedger(t', d)
  {
    forall f | FundKey(f) in t'
      ensures AmountAttr(t'[FundKey(f)], "min_amount") >= 0
    {
      FundKeyOutsideClients(f, c);
    }
    forall k | k in t' && PartitionOwner(k.0).Some? && k.1 != BalanceSortKey
      ensures ClientKey(PartitionOwner(k.0).value) in t'
    {
      var o := PartitionOwner(k.0).value;
      OwnerOfPartition(c, k.0, "");
      ClientPartitionInjective(c, o);
    }
    forall d | d != c && ClientKey(d) in t'
      ensures ClientLedger(t', d)
    {
      ClientPartitionInjective(c, d);
      LedgerKept(t, t', d);
    }
  }

  // ----- Each operation keeps the invariant -----

  /**
   * Books stay balanced when an operation appends one fresh transaction item and
   * moves the balance by exactly that item's signed amount, leaving the rest of
   * the log alone and every subscription amount non-negative.
   */
  lemma BooksAfterEntry(t: Table, t': Table, c: string, txId: string, delta: int)
    requires ClientLedger(t, c)
    requires TransactionKey(c, txId) !in t && TransactionKey(c, txId) in t'
    requires forall k :: k in LogKeys(t', c) ==> k in LogKeys(t, c) || k == TransactionKey(c, txId)
    requires forall k :: k in LogKeys(t, c) ==> k in t' && t'[k] == t[k]
    requires ItemEffect(t'[TransactionKey(c, txId)]) == delta
    requires BalanceKey(c) in t' && BalanceShape(ItemAt(t', BalanceKey(c)))
    requires StoredBalance(t', c) == StoredBalance(t, c) + delta >= 0
    requires forall f :: SubscriptionKey(c, f) in t' ==> AmountAttr(t'[SubscriptionKey(c, f)], "amount") >= 0
    ensures ClientLedger(t', c)
  {
    LogAppend(t, t', c, txId);
  }

  /** After a deposit the depositor's books still balance. */
  lemma DepositBooks(t: Table, c: string, amount: int, txId: string, now: Timestamp)
    requires ClientLedger(t, c) && TransactionKey(c, txId) !in t
    ensures var s := Deposit(t, c, amount, txId, now);
      s.result.Success? ==> ClientLedger(s.after, c)
  {
    hide Deposit, PriorBalance, BalanceGetByClientId, ClientGetById, LogSum, LogKeys;
    var s := Deposit(t, c, amount, txId, now);
    if s.result.Success? {
      DepositCredits(t, c, amount, txId, now);
      var t' := s.after;
      var tk := TransactionKey(c, txId);
      PartitionKeysDistinct(c, txId, "");
      LogKeyKinds(c, txId, "");
      BalanceRead(t, c, now);
      BalanceRead(t', c, now);
      DecodedEffect(ItemAt(t', tk), now, s.result.value.transaction);
      forall f | SubscriptionKey(c, f) in t'
        ensures AmountAttr(t'[SubscriptionKey(c, f)], "amount") >= 0
      {
        PartitionKeysDistinct(c, txId, f);
      }
      BooksAfterEntry(t, t', c, txId, amount);
    }
  }

  /** A deposit keeps the invariant, given a fresh transaction id. */
  lemma DepositKeepsLedger(t: Table, c: string, amount: int, txId: string, now: Timestamp)
    requires LedgerOk(t) && TransactionKey(c, txId) !in t
    ensures LedgerOk(Deposit(t, c, amount, txId, now).after)
  {
    hide Deposit, PriorBalance, BalanceGetByClientId, ClientGetById, LogSum, LogKeys, ClientLedger;
    var s := Deposit(t, c, amount, txId, now);
    if s.result.Success? {
      DepositCredits(t, c, amount, txId, now);
      DepositBooks(t, c, amount, txId, now);
      PartitionKeysDistinct(c, txId, "");
      PartitionFrame(t, s.after, {BalanceKey(c), TransactionKey(c, txId)}, ClientPartition(c));
      OthersKept(t, s.after, c);
    }
  }

  /**
   * What a successful subscription does to the numbers: the stored subscription
   * amount is the fund's non-negative minimum, the balance drops by it without
   * going negative, and the new transaction item subtracts it.
   */
  lemma SubscribeEntry(t: Table, c: string, fundId: string, txId: string, now: Timestamp)
    requires CatalogOk(t) && ClientLedger(t, c)
    ensures var s := Subscribe(t, c, fundId, txId, now);
      s.result.Success? ==>
      var amount := s.result.value.subscription.amount;
      && SubscriptionKey(c, fundId) in s.after && AmountAttr(s.after[SubscriptionKey(c, fundId)], "amount") == amount >= 0
      && BalanceKey(c) in s.after && BalanceShape(ItemAt(s.after, BalanceKey(c)))
      && StoredBalance(s.after, c) == StoredBalance(t, c) - amount >= 0
      && TransactionKey(c, txId) in s.after && ItemEffect(s.after[TransactionKey(c, txId)]) == -amount
  {
    var s := Subscribe(t, c, fundId, txId, now);
    if s.result.Success? {
      SubscribeCharges(t, c, fundId, txId, now);
      SubscribeSucceedsWhen(t, c, fundId, txId, now);
      var t' := s.after;
      FundRead(t, fundId, now, FundGetById(t, fundId, now).value.value);
      SubscriptionRead(t', c, fundId, now, s.result.value.subscription);
      BalanceRead(t, c, now);
      BalanceRead(t', c, now);
      DecodedEffect(ItemAt(t', TransactionKey(c, txId)), now, s.result.value.transaction);
    }
  }

  /** After a subscription the subscriber's books still balance. */
  lemma SubscribeBooks(t: Table, c: string, fundId: string, txId: string, now: Timestamp)
    requires CatalogOk(t) && ClientLedger(t, c) && TransactionKey(c, txId) !in t
    ensures var s := Subscribe(t, c, fundId, txId, now);
      s.result.Success? ==> ClientLedger(s.after, c)
  {
    hide Subscribe, Enroll, GetOrCreateBalance, PriorBalance, LogSum, LogKeys, StoredBalance, ItemEffect;
    hide BalanceGetByClientId, ClientGetById, FundGetById, SubscriptionGetByClientAndFund;
    var s := Subscribe(t, c, fundId, txId, now);
    if s.result.Success? {
      SubscribeCharges(t, c, fundId, txId, now);
      SubscribeEntry(t, c, fundId, txId, now);
      var t' := s.after;
      PartitionKeysDistinct(c, txId, fundId);
      LogKeyKinds(c, txId, fundId);
      SubscriptionAmountsKept(t, t', c, fundId, txId);
      BooksAfterEntry(t, t', c, txId, -s.result.value.subscription.amount);
    }
  }

  /** A subscription keeps the invariant, given a fresh transaction id. */
  lemma SubscribeKeepsLedger(t: Table, c: string, fundId: string, txId: string, now: Timestamp)
    requires LedgerOk(t) && TransactionKey(c, txId) !in t
    ensures LedgerOk(Subscribe(t, c, fundId, txId, now).after)
  {
    hide Subscribe, Enroll, GetOrCreateBalance, PriorBalance, LogSum, LogKeys;
    hide BalanceGetByClientId, ClientGetById, FundGetById, SubscriptionGetByClientAndFund;
    var s := Subscribe(t, c, fundId, txId, now);
    if s.result.Failure? {
      if s.after != t {
        assert false;
      }
    } else {
      SubscribedKeepsLedger(t, c, fundId, txId, now);
    }
  }

  /** A successful subscription keeps the invariant. */
  lemma SubscribedKeepsLedger(t: Table, c: string, fundId: string, txId: string, now: Timestamp)
    requires LedgerOk(t) && TransactionKey(c, txId) !in t
    requires Subscribe(t, c, fundId, txId, now).result.Success?
    ensures LedgerOk(Subscribe(t, c, fundId, txId, now).after)
  {
    hide Subscribe, Enroll, GetOrCreateBalance, PriorBalance, LogSum, LogKeys;
    hide BalanceGetByClientId, ClientGetById, FundGetById, SubscriptionGetByClientAndFund;
    hide ClientLedger, OnlyKeysChanged, Settle, UpdateBalance;
    var s := Subscribe(t, c, fundId, txId, now);
    SubscribeCharges(t, c, fundId, txId, now);
    SubscribeSucceedsWhen(t, c, fundId, txId, now);
    SubscribeBooks(t, c, fundId, txId, now);
    PartitionKeysDistinct(c, txId, fundId);
    PartitionFrame(t, s.after, {SubscriptionKey(c, fundId), BalanceKey(c), TransactionKey(c, txId)}, ClientPartition(c));
    OthersKept(t, s.after, c);
  }

  /** After a cancellation the client's books still balance. */
  lemma CancelBooks(t: Table, c: string, fundId: string, txId: string, now: Timestamp)
    requires ClientLedger(t, c) && TransactionKey(c, txId) !in t
    ensures var s := CancelSubscription(t, c, fundId, txId, now);
      s.result.Success? ==> ClientLedger(s.after, c)
  {
    hide DecodeFund, DecodeBalance, DecodeTransaction, DecodeClient;
    hide EncodeFund, EncodeBalance, EncodeTransaction, EncodeSubscription, EncodeClient;
    hide FundShape, TransactionShape, ClientShape;
    hide CancelSubscription, Refund, GetOrCreateBalance, PriorBalance, LogSum, LogKeys;
    hide BalanceGetByClientId, ClientGetById, FundGetById, SubscriptionGetByClientAndFund;
    var s := CancelSubscription(t, c, fundId, txId, now);
    if s.result.Success? {
      CancelRefunds(t, c, fundId, txId, now);
      var t' := s.after;
      var tk := TransactionKey(c, txId);
      var sk := SubscriptionKey(c, fundId);
      PartitionKeysDistinct(c, txId, fundId);
      LogKeyKinds(c, txId, fundId);
      BalanceRead(t, c, now);
      BalanceRead(t', c, now);
      var refund := DecodeSubscription(ItemAt(t, sk), now).value.amount;
      assert AmountAttr(t[sk], "amount") == refund;
      DecodedEffect(ItemAt(t', tk), now, s.result.value.transaction);
      SubscriptionAmountsKept(t, t', c, fundId, txId);
      BooksAfterEntry(t, t', c, txId, refund);
    }
  }

  /** A cancellation keeps the invariant, given a fresh transaction id. */
  lemma CancelKeepsLedger(t: Table, c: string, fundId: string, txId: string, now: Timestamp)
    requires LedgerOk(t) && TransactionKey(c, txId) !in t
    ensures LedgerOk(CancelSubscription(t, c, fundId, txId, now).after)
  {
    hide DecodeFund, DecodeBalance, DecodeTransaction, DecodeSubscription, DecodeClient;
    hide EncodeFund, EncodeBalance, EncodeTransaction, EncodeSubscription, EncodeClient;
    hide FundShape, TransactionShape, SubscriptionShape, ClientShape;
    hide CancelSubscription, Refund, GetOrCreateBalance, PriorBalance, LogSum, LogKeys;
    hide ClientGetById, FundGetById, SubscriptionGetByClientAndFund;
    var s := CancelSubscription(t, c, fundId, txId, now);
    OwnerOfPartition(c, ClientPartition(c), "");
    if s.result.Failure? {
      if s.after != t {
        BalanceRead(t, c, now);
        DeleteKeepsBalance(t, c, fundId, now);
        assert false;
      }
    } else {
      CancelledKeepsLedger(t, c, fundId, txId, now);
    }
  }

  /** A successful cancellation keeps the invariant. */
  lemma CancelledKeepsLedger(t: Table, c: string, fundId: string, txId: string, now: Timestamp)
    requires LedgerOk(t) && TransactionKey(c, txId) !in t
    requires CancelSubscription(t, c, fundId, txId, now).result.Success?
    ensures LedgerOk(CancelSubscription(t, c, fundId, txId, now).after)
  {
    hide DecodeFund, DecodeBalance, DecodeTransaction, DecodeSubscription, DecodeClient;
    hide EncodeFund, EncodeBalance, EncodeTransaction, EncodeSubscription, EncodeClient;
    hide FundShape, TransactionShape, SubscriptionShape, ClientShape;
    hide CancelSubscription, Refund, GetOrCreateBalance, PriorBalance, LogSum, LogKeys;
    hide ClientGetById, FundGetById, SubscriptionGetByClientAndFund;
    var s := CancelSubscription(t, c, fundId, txId, now);
    OwnerOfPartition(c, ClientPartition(c), "");
    CancelRefunds(t, c, fundId, txId, now);
    PartitionKeysDistinct(c, txId, fundId);
    assert ClientLedger(t, c);
    CancelBooks(t, c, fundId, txId, now);
    PartitionFrame(t, s.after, {SubscriptionKey(c, fundId), BalanceKey(c), TransactionKey(c, txId)}, ClientPartition(c));
    OthersKept(t, s.after, c);
  }

  /**
   * A newly created client's books balance: the opening grant is the balance, and
   * the log holds exactly one transaction, the SALDO_INICIAL entry of that grant.
   */
  lemma CreateOpensBooks(t: Table, c: string, name: string, surname: string, city: string,
                         email: Option<string>, phone: Option<string>, txId: string, now: Timestamp)
    requires Owned(t)
    ensures var s := CreateClient(t, c, name, surname, city, email, phone, txId, now);
      s.result.Success? ==>
        && ClientLedger(s.after, c) && StoredBalance(s.after, c) == InitialGrant
        && LogKeys(s.after, c) == {TransactionKey(c, txId)}
        && ItemAt(s.after, TransactionKey(c, txId)).attrs["transaction_type"] == Str(InitialGrantType)
        && ItemAt(s.after, TransactionKey(c, txId)).attrs["amount"] == Num(InitialGrant)
  {
    hide CreateClient, Settle, PriorBalance, LogKeys;
    hide BalanceGetByClientId, ClientGetById, FundGetById, SubscriptionGetByClientAndFund;
    var s := CreateClient(t, c, name, surname, city, email, phone, txId, now);
    if s.result.Success? {
      CreateClientWrites(t, c, name, surname, city, email, phone, txId, now);
      var t' := s.after;
      var tk := TransactionKey(c, txId);
      PartitionKeysDistinct(c, txId, "");
      LogKeyKinds(c, txId, "");
      forall k | k in LogKeys(t, c)
        ensures false
      {
        assert k.1 != BalanceSortKey by {
          assert TransactionPrefix <= k.1;
        }
        EmptyPartition(t, c, k);
      }
      assert LogKeys(t, c) == {};
      BalanceRead(t', c, now);
      DecodedEffect(ItemAt(t', tk), now, s.result.value.transaction);
      LogAppend(t, t', c, txId);
      forall f
        ensures SubscriptionKey(c, f) !in t'
      {
        PartitionKeysDistinct(c, txId, f);
        if SubscriptionKey(c, f) in t' {
          EmptyPartition(t, c, SubscriptionKey(c, f));
          assert false;
        }
      }
    }
  }

  /** Creating a client keeps the invariant. */
  lemma CreateKeepsLedger(t: Table, c: string, name: string, surname: string, city: string,
                          email: Option<string>, phone: Option<string>, txId: string, now: Timestamp)
    requires LedgerOk(t)
    ensures LedgerOk(CreateClient(t, c, name, surname, city, email, phone, txId, now).after)
  {
    hide CreateClient, Settle, PriorBalance, LogSum, ClientLedger;
    hide BalanceGetByClientId, ClientGetById, FundGetById, SubscriptionGetByClientAndFund;
    var s := CreateClient(t, c, name, surname, city, email, phone, txId, now);
    if s.result.Success? {
      CreateClientWrites(t, c, name, surname, city, email, phone, txId, now);
      CreateOpensBooks(t, c, name, surname, city, email, phone, txId, now);
      PartitionKeysDistinct(c, txId, "");
      PartitionFrame(t, s.after, {ClientKey(c), BalanceKey(c), TransactionKey(c, txId)}, ClientPartition(c));
      OthersKept(t, s.after, c);
    }
  }

  /** Seeding the catalog keeps the invariant: it touches fund keys only, with non-negative minimums. */
  lemma InitFundsKeepsLedger(t: Table, now: Timestamp)
    requires LedgerOk(t)
    ensures LedgerOk(InitializeDefaultFunds(t, now).after)
  {
    var t' := InitializeDefaultFunds(t, now).after;
    var fs := DefaultFunds(now);
    DefaultCatalog(now);
    InitializeWritesCatalog(t, now, now);
    forall f | FundKey(f) in t'
      ensures AmountAttr(t'[FundKey(f)], "min_amount") >= 0
    {
      if FundKey(f) in FundKeys(fs) {
        var g :| g in fs && FundKey(f) == FundKey(g.fundId);
        FundKeyInjective(f, g.fundId);
        FundRead(t', f, now, g);
      }
    }
    forall k | k in t' && PartitionOwner(k.0).Some? && k.1 != BalanceSortKey
      ensures ClientKey(PartitionOwner(k.0).value) in t'
    {
      var o := PartitionOwner(k.0).value;
      if k in FundKeys(fs) {
        var g :| g in fs && k == FundKey(g.fundId);
        OwnerOfPartition(o, k.0, g.fundId);
        assert false;
      }
      if ClientKey(o) in FundKeys(fs) {
        var g :| g in fs && ClientKey(o) == FundKey(g.fundId);
        FundKeyOutsideClients(g.fundId, o);
        assert false;
      }
    }
    forall d | ClientKey(d) in t'
      ensures ClientLedger(t', d)
    {
      forall k: Key | k.0 == ClientPartition(d)
        ensures k !in FundKeys(fs)
      {
        if k in FundKeys(fs) {
          var g :| g in fs && k == FundKey(g.fundId);
          FundKeyOutsideClients(g.fundId, d);
          assert false;
        }
      }
      LedgerKept(t, t', d);
    }
  }

  /**
   * Reading a balance keeps the invariant. For an existing client the balance
   * is stored already and nothing is written; for an unknown id the zero balance
   * it stores is the orphan the invariant allows, and nothing else changes.
   */
  lemma ReadBalanceKeepsLedger(t: Table, c: string, now: Timestamp)
    requires LedgerOk(t)
    ensures var s := GetOrCreateBalance(t, c, now);
      && (ClientKey(c) in t ==> s.after == t)
      && LedgerOk(s.after)
  {
    var t' := GetOrCreateBalance(t, c, now).after;
    if ClientKey(c) in t {
      assert ClientLedger(t, c);
    } else if BalanceKey(c) !in t {
      forall f | FundKey(f) in t'
        ensures AmountAttr(t'[FundKey(f)], "min_amount") >= 0
      {
        FundKeyOutsideClients(f, c);
      }
      forall k | k in t' && PartitionOwner(k.0).Some? && k.1 != BalanceSortKey
        ensures ClientKey(PartitionOwner(k.0).value) in t'
      {
        PartitionKeysDistinct(PartitionOwner(k.0).value, "", "");
      }
      forall d | ClientKey(d) in t'
        ensures ClientLedger(t', d)
      {
        PartitionKeysDistinct(d, "", "");
        ClientPartitionInjective(c, d);
        LedgerKept(t, t', d);
      }
    }
  }

  // ----- Runs of operations -----

  /**
   * One write the HTTP views reach, with the identifier and clock it is
   * handed: seeding, client creation, the balance read-or-create the balance
   * view makes for any id, deposit, subscribe and cancel. The views' other
   * calls only read; `UpdateBalance` is reached only through deposit,
   * subscribe and cancel, and `ClientDelete` is never called.
   */
  datatype Op =
    | InitFunds(now: Timestamp)
    | NewClient(clientId: string, name: string, surname: string, city: string,
                email: Option<string>, phone: Option<string>, txId: string, now: Timestamp)
    | ReadBalance(clientId: string, now: Timestamp)
    | DepositInto(clientId: string, amount: int, txId: string, now: Timestamp)
    | SubscribeTo(clientId: string, fundId: string, txId: string, now: Timestamp)
    | CancelFrom(clientId: string, fundId: string, txId: string, now: Timestamp)

  /** The table an operation leaves behind, whether it succeeded or not. */
  function Apply(t: Table, op: Op): Table {
    match op
    case InitFunds(now) => InitializeDefaultFunds(t, now).after
    case NewClient(c, name, surname, city, email, phone, txId, now) =>
      CreateClient(t, c, name, surname, city, email, phone, txId, now).after
    case ReadBalance(c, now) => GetOrCreateBalance(t, c, now).after
    case DepositInto(c, amount, txId, now) => Deposit(t, c, amount, txId, now).after
    case SubscribeTo(c, fundId, txId, now) => Subscribe(t, c, fundId, txId, now).after
    case CancelFrom(c, fundId, txId, now) => CancelSubscription(t, c, fundId, txId, now).after
  }

  /**
   * The transaction id an operation is handed names no stored transaction, as a
   * freshly generated identifier would. A creation needs no such guarantee: it
   * only writes into a partition that holds no transaction, and seeding and
   * balance reads write no transaction.
   */
  predicate FreshFor(t: Table, op: Op) {
    match op
    case InitFunds(_) => true
    case NewClient(_, _, _, _, _, _, _, _) => true
    case ReadBalance(_, _) => true
    case DepositInto(c, _, txId, _) => TransactionKey(c, txId) !in t
    case SubscribeTo(c, _, txId, _) => TransactionKey(c, txId) !in t
    case CancelFrom(c, _, txId, _) => TransactionKey(c, txId) !in t
  }

  /** The operations run one after another. */
  function Run(t: Table, ops: seq<Op>): Table
    decreases |ops|
  {
    if ops == [] then t else Run(Apply(t, ops[0]), ops[1..])
  }

  /** Every operation of the run is handed a fresh transaction id. */
  predicate FreshRun(t: Table, ops: seq<Op>)
    decreases |ops|
  {
    ops == [] || (FreshFor(t, ops[0]) && FreshRun(Apply(t, ops[0]), ops[1..]))
  }

  /** Every operation keeps the invariant. */
  lemma ApplyKeepsLedger(t: Table, op: Op)
    requires LedgerOk(t) && FreshFor(t, op)
    ensures LedgerOk(Apply(t, op))
  {
    match op
    case InitFunds(now) => InitFundsKeepsLedger(t, now);
    case NewClient(c, name, surname, city, email, phone, txId, now) =>
      CreateKeepsLedger(t, c, name, surname, city, email, phone, txId, now);
    case ReadBalance(c, now) => ReadBalanceKeepsLedger(t, c, now);
    case DepositInto(c, amount, txId, now) => DepositKeepsLedger(t, c, amount, txId, now);
    case SubscribeTo(c, fundId, txId, now) => SubscribeKeepsLedger(t, c, fundId, txId, now);
    case CancelFrom(c, fundId, txId, now) => CancelKeepsLedger(t, c, fundId, txId, now);
  }

  /** Any run of operations keeps the invariant. */
  lemma {:induction false} RunKeepsLedger(t: Table, ops: seq<Op>)
    requires LedgerOk(t) && FreshRun(t, ops)
    ensures LedgerOk(Run(t, ops))
    decreases |ops|
  {
    if ops != [] {
      ApplyKeepsLedger(t, ops[0]);
      RunKeepsLedger(Apply(t, ops[0]), ops[1..]);
    }
  }

  /**
   * Under the invariant every client's balance reads back, is not negative, and
   * equals the signed sum of the client's transaction items.
   */
  lemma BooksBalance(t: Table, c: string, now: Timestamp)
    requires LedgerOk(t) && ClientKey(c) in t
    ensures var r := BalanceGetByClientId(t, c, now);
      && r.Success? && r.value.Some?
      && r.value.value.balance >= 0
      && r.value.value.balance == LogSum(t, LogKeys(t, c))
  {
    BalanceRead(t, c, now);
  }

  /**
   * Starting from an empty table, after any run of operations with fresh ids,
   * every existing client's balance is not negative and equals the signed sum of
   * its transaction log.
   */
  lemma RunBalancesBooks(ops: seq<Op>, c: string, now: Timestamp)
    requires FreshRun(map[], ops) && ClientKey(c) in Run(map[], ops)
    ensures var t := Run(map[], ops);
      var r := BalanceGetByClientId(t, c, now);
      && r.Success? && r.value.Some?
      && r.value.value.balance >= 0
      && r.value.value.balance == LogSum(t, LogKeys(t, c))
  {
    EmptyLedger();
    RunKeepsLedger(map[], ops);
    BooksBalance(Run(map[], ops), c, now);
  }

  // ----- Subscribe, then cancel or subscribe again -----

  /**
   * Cancelling right after a successful subscription succeeds, removes the
   * subscription, refunds exactly what was charged and restores the balance the
   * client had before subscribing, whatever the two clocks.
   */
  lemma SubscribeThenCancelRestores(t: Table, c: string, fundId: string, txId1: string, txId2: string,
                                    now1: Timestamp, now2: Timestamp)
    requires Subscribe(t, c, fundId, txId1, now1).result.Success?
    ensures var s1 := Subscribe(t, c, fundId, txId1, now1);
      var s2 := CancelSubscription(s1.after, c, fundId, txId2, now2);
      && s2.result.Success?
      && s2.result.value.transaction.amount == s1.result.value.subscription.amount
      && SubscriptionKey(c, fundId) !in s2.after
      && BalanceGetByClientId(s2.after, c, now2) == Success(Some(ClientBalance(c, PriorBalance(t, c, now1), now2)))
  {
    hide Subscribe, Enroll, CancelSubscription, Refund, GetOrCreateBalance, PriorBalance;
    hide BalanceGetByClientId, ClientGetById, FundGetById, SubscriptionGetByClientAndFund;
    var t1 := Subscribe(t, c, fundId, txId1, now1).after;
    SubscribedState(t, c, fundId, txId1, now1, now2);
    CancelGuards(t1, c, fundId, txId2, now2);
    CancelRefunds(t1, c, fundId, txId2, now2);
  }

  /**
   * Right after a successful subscription, a cancellation at any clock finds the
   * fund, the subscription and the balance, and the recorded amount brings the
   * balance back to its value before the subscription.
   */
  lemma SubscribedState(t: Table, c: string, fundId: string, txId1: string, now1: Timestamp, now2: Timestamp)
    requires Subscribe(t, c, fundId, txId1, now1).result.Success?
    ensures var s1 := Subscribe(t, c, fundId, txId1, now1);
      var t1 := s1.after;
      var sk := SubscriptionKey(c, fundId);
      && FundGetById(t1, fundId, now2).Success? && FundKey(fundId) in t1
      && sk in t1 && SubscriptionGetByClientAndFund(t1, c, fundId, now2).Success?
      && BalanceGetByClientId(t1, c, now2).Success?
      && DecodeSubscription(ItemAt(t1, sk), now2).Success?
      && DecodeSubscription(ItemAt(t1, sk), now2).value.amount == s1.result.value.subscription.amount
      && PriorBalance(t1, c, now2) + s1.result.value.subscription.amount == PriorBalance(t, c, now1)
  {
    hide TransactionShape, ClientShape;
    hide Subscribe, Enroll, CancelSubscription, Refund, GetOrCreateBalance, PriorBalance;
    var s1 := Subscribe(t, c, fundId, txId1, now1);
    var t1 := s1.after;
    var sub := s1.result.value.subscription;
    SubscribeCharges(t, c, fundId, txId1, now1);
    SubscribeSucceedsWhen(t, c, fundId, txId1, now1);
    PartitionKeysDistinct(c, txId1, fundId);
    FundKeyOutsideClients(fundId, c);
    assert ItemAt(t1, FundKey(fundId)) == ItemAt(t, FundKey(fundId));
    SubscriptionRead(t1, c, fundId, now1, sub);
    BalanceRead(t1, c, now1);
    BalanceRead(t1, c, now2);
  }

  /**
   * A second subscription of the same client to the same fund is refused as a
   * duplicate and writes nothing: the client is charged once.
   */
  lemma SubscribeTwiceRejected(t: Table, c: string, fundId: string, txId1: string, txId2: string,
                               now1: Timestamp, now2: Timestamp)
    requires Subscribe(t, c, fundId, txId1, now1).result.Success?
    ensures var s1 := Subscribe(t, c, fundId, txId1, now1);
      var s2 := Subscribe(s1.after, c, fundId, txId2, now2);
      s2.result.Failure? && s2.result.error.AlreadySubscribed? && s2.after == s1.after
  {
    hide TransactionShape;
    hide Subscribe, Enroll, GetOrCreateBalance, PriorBalance;
    var s1 := Subscribe(t, c, fundId, txId1, now1);
    var t1 := s1.after;
    SubscribeCharges(t, c, fundId, txId1, now1);
    SubscribeSucceedsWhen(t, c, fundId, txId1, now1);
    PartitionKeysDistinct(c, txId1, fundId);
    FundKeyOutsideClients(fundId, c);
    assert ItemAt(t1, FundKey(fundId)) == ItemAt(t, FundKey(fundId));
    assert ItemAt(t1, ClientKey(c)) == ItemAt(t, ClientKey(c));
    BalanceRead(t1, c, now1);
    BalanceRead(t1, c, now2);
    SubscribeRefusesDuplicate(t1, c, fundId, txId2, now2);
  }
}
