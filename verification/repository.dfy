/**
 * The static persistence methods of the entities: save, point lookups, the
 * catalog-wide listings and the per-client queries, all against an explicit
 * table. A save is a put of the encoded item; a lookup decodes whatever the
 * derived key holds.
 */
module Repository {
  import opened Wrappers
  import opened Store
  import opened Keys
  import opened Codec

  /** Point lookup followed by decoding; an absent key reads as None. */
  function Lookup<T>(t: Table, k: Key, decode: Item -> Result<T, DecodeError>): (r: Result<Option<T>, DecodeError>)
    ensures k !in t ==> r == Success(None)
    ensures k in t ==> (r.Success? <==> decode(ItemAt(t, k)).Success?)
    ensures k in t && r.Success? ==> r.value == Some(decode(ItemAt(t, k)).value)
  {
    match Get(t, k)
    case None => Success(None)
    case Some(it) =>
      var v :- decode(it);
      Success(Some(v))
  }

  /**
   * Decodes every selected item; one malformed item fails the whole listing
   * (the failure names every malformed key).
   */
  function DecodeAll<T(==,!new)>(items: set<Item>, decode: Item -> Result<T, DecodeError>): (r: Result<set<T>, DecodeError>)
    ensures r.Success? <==> forall it :: it in items ==> decode(it).Success?
    ensures r.Success? ==> forall x :: x in r.value <==> exists it :: it in items && decode(it) == Success(x)
  {
    var bad := set it | it in items && decode(it).Failure? :: it.key;
    if bad != {} then Failure(MalformedItems(bad))
    else
      assert forall it :: it in items && decode(it).Failure? ==> it.key in bad;
      Success(set it | it in items && decode(it).Success? :: decode(it).value)
  }

  // ----- Fund -----

  /** `Fund.save`: afterwards the fund reads back by its id, and nothing else changed. */
  function FundSave(t: Table, f: Fund): (t': Table)
    ensures forall now: Timestamp :: FundGetById(t', f.fundId, now) == Success(Some(f))
    ensures forall k :: k != FundKey(f.fundId) ==> (k in t' <==> k in t)
    ensures forall k :: k != FundKey(f.fundId) && k in t ==> t'[k] == t[k]
  {
    Put(t, EncodeFund(f))
  }

  /** `Fund.get_by_id`. */
  function FundGetById(t: Table, fundId: string, now: Timestamp): (r: Result<Option<Fund>, DecodeError>)
    ensures FundKey(fundId) !in t ==> r == Success(None)
    ensures FundKey(fundId) in t ==> r.Success? == DecodeFund(ItemAt(t, FundKey(fundId)), now).Success?
  {
    Lookup(t, FundKey(fundId), it => DecodeFund(it, now))
  }

  /**
   * `Fund.get_all`: the funds decoded from exactly the items whose partition key
   * begins with the fund prefix.
   */
  function FundGetAll(t: Table, now: Timestamp): (r: Result<set<Fund>, DecodeError>)
    ensures r.Success? <==> forall k :: k in t && FundPrefix <= k.0 ==> DecodeFund(ItemAt(t, k), now).Success?
    ensures r.Success? ==> forall f :: f in r.value <==>
      exists k :: k in t && FundPrefix <= k.0 && DecodeFund(ItemAt(t, k), now) == Success(f)
  {
    var selected := set it | it in Scan(t) && FundPrefix <= it.key.0;
    var r := DecodeAll(selected, it => DecodeFund(it, now));
    assert forall k :: k in t && FundPrefix <= k.0 ==> ItemAt(t, k) in selected;
    r
  }

  // ----- ClientBalance -----

  /** `ClientBalance.save`: afterwards the balance reads back for its client, and nothing else changed. */
  function BalanceSave(t: Table, b: ClientBalance): (t': Table)
    ensures forall now: Timestamp :: BalanceGetByClientId(t', b.clientId, now) == Success(Some(b))
    ensures forall k :: k != BalanceKey(b.clientId) ==> (k in t' <==> k in t)
    ensures forall k :: k != BalanceKey(b.clientId) && k in t ==> t'[k] == t[k]
  {
    Put(t, EncodeBalance(b))
  }

  /** `ClientBalance.get_by_client_id`. */
  function BalanceGetByClientId(t: Table, clientId: string, now: Timestamp): (r: Result<Option<ClientBalance>, DecodeError>)
    ensures BalanceKey(clientId) !in t ==> r == Success(None)
    ensures BalanceKey(clientId) in t ==> r.Success? == DecodeBalance(ItemAt(t, BalanceKey(clientId)), now).Success?
  {
    Lookup(t, BalanceKey(clientId), it => DecodeBalance(it, now))
  }

  // ----- Transaction -----

  /** `Transaction.save`: the transaction is filed in its client's partition; nothing else changed. */
  function TransactionSave(t: Table, tx: Transaction): (t': Table)
    ensures TransactionKey(tx.clientId, tx.transactionId) in t'
    ensures forall now: Timestamp :: DecodeTransaction(ItemAt(t', TransactionKey(tx.clientId, tx.transactionId)), now) == Success(tx)
    ensures forall k :: k != TransactionKey(tx.clientId, tx.transactionId) ==> (k in t' <==> k in t)
    ensures forall k :: k != TransactionKey(tx.clientId, tx.transactionId) && k in t ==> t'[k] == t[k]
  {
    Put(t, EncodeTransaction(tx))
  }

  /**
   * `Transaction.get_by_client_id`: the transactions decoded from exactly the
   * items of partition `CLIENT#clientId` whose sort key begins with the
   * transaction prefix.
   */
  function TransactionsByClientId(t: Table, clientId: string, now: Timestamp): (r: Result<set<Transaction>, DecodeError>)
    ensures r.Success? <==> forall k :: k in t && k.0 == ClientPartition(clientId) && TransactionPrefix <= k.1
                                        ==> DecodeTransaction(ItemAt(t, k), now).Success?
    ensures r.Success? ==> forall tx :: tx in r.value <==>
      exists k :: k in t && k.0 == ClientPartition(clientId) && TransactionPrefix <= k.1
                  && DecodeTransaction(ItemAt(t, k), now) == Success(tx)
  {
    var items := Query(t, ClientPartition(clientId), TransactionPrefix);
    var selected := set it | it in items && TransactionPrefix <= it.key.1;
    assert forall k :: k in t && k.0 == ClientPartition(clientId) && TransactionPrefix <= k.1 ==> ItemAt(t, k) in selected;
    DecodeAll(selected, it => DecodeTransaction(it, now))
  }

  // ----- ClientFundSubscription -----

  /** `ClientFundSubscription.save`: afterwards the subscription reads back for its pair; nothing else changed. */
  function SubscriptionSave(t: Table, s: Subscription): (t': Table)
    ensures forall now: Timestamp :: SubscriptionGetByClientAndFund(t', s.clientId, s.fundId, now) == Success(Some(s))
    ensures forall k :: k != SubscriptionKey(s.clientId, s.fundId) ==> (k in t' <==> k in t)
    ensures forall k :: k != SubscriptionKey(s.clientId, s.fundId) && k in t ==> t'[k] == t[k]
  {
    Put(t, EncodeSubscription(s))
  }

  /**
   * `ClientFundSubscription.get_by_client_id`: the subscriptions decoded from
   * exactly the items of partition `CLIENT#clientId` whose sort key begins with
   * the subscription prefix.
   */
  function SubscriptionsByClientId(t: Table, clientId: string, now: Timestamp): (r: Result<set<Subscription>, DecodeError>)
    ensures r.Success? <==> forall k :: k in t && k.0 == ClientPartition(clientId) && SubscriptionPrefix <= k.1
                                        ==> DecodeSubscription(ItemAt(t, k), now).Success?
    ensures r.Success? ==> forall s :: s in r.value <==>
      exists k :: k in t && k.0 == ClientPartition(clientId) && SubscriptionPrefix <= k.1
                  && DecodeSubscription(ItemAt(t, k), now) == Success(s)
  {
    var items := Query(t, ClientPartition(clientId), SubscriptionPrefix);
    var selected := set it | it in items && SubscriptionPrefix <= it.key.1;
    assert forall k :: k in t && k.0 == ClientPartition(clientId) && SubscriptionPrefix <= k.1 ==> ItemAt(t, k) in selected;
    DecodeAll(selected, it => DecodeSubscription(it, now))
  }

  /** `ClientFundSubscription.get_by_client_and_fund`. */
  function SubscriptionGetByClientAndFund(t: Table, clientId: string, fundId: string, now: Timestamp)
    : (r: Result<Option<Subscription>, DecodeError>)
    ensures SubscriptionKey(clientId, fundId) !in t ==> r == Success(None)
    ensures SubscriptionKey(clientId, fundId) in t ==>
      r.Success? == DecodeSubscription(ItemAt(t, SubscriptionKey(clientId, fundId)), now).Success?
  {
    Lookup(t, SubscriptionKey(clientId, fundId), it => DecodeSubscription(it, now))
  }

  /**
   * `ClientFundSubscription.delete`: afterwards the pair has no subscription;
   * every other item is untouched. Deleting an absent subscription is no error.
   */
  function SubscriptionDelete(t: Table, clientId: string, fundId: string): (t': Table)
    ensures forall now: Timestamp :: SubscriptionGetByClientAndFund(t', clientId, fundId, now) == Success(None)
    ensures forall k :: k != SubscriptionKey(clientId, fundId) ==> (k in t' <==> k in t)
    ensures forall k :: k != SubscriptionKey(clientId, fundId) && k in t ==> t'[k] == t[k]
  {
    Delete(t, SubscriptionKey(clientId, fundId))
  }

  // ----- Client -----

  /** `Client.save`: afterwards the client reads back by its id, and nothing else changed. */
  function ClientSave(t: Table, c: Client): (t': Table)
    ensures forall now: Timestamp :: ClientGetById(t', c.clientId, now) == Success(Some(c))
    ensures forall k :: k != ClientKey(c.clientId) ==> (k in t' <==> k in t)
    ensures forall k :: k != ClientKey(c.clientId) && k in t ==> t'[k] == t[k]
  {
    Put(t, EncodeClient(c))
  }

  /** `Client.get_by_id`. */
  function ClientGetById(t: Table, clientId: string, now: Timestamp): (r: Result<Option<Client>, DecodeError>)
    ensures ClientKey(clientId) !in t ==> r == Success(None)
    ensures ClientKey(clientId) in t ==> r.Success? == DecodeClient(ItemAt(t, ClientKey(clientId)), now).Success?
  {
    Lookup(t, ClientKey(clientId), it => DecodeClient(it, now))
  }

  /**
   * `Client.get_all`: the clients decoded from exactly the items whose partition
   * and sort keys both begin with the client prefix.
   */
  function ClientGetAll(t: Table, now: Timestamp): (r: Result<set<Client>, DecodeError>)
    ensures r.Success? <==> forall k :: k in t && ClientPrefix <= k.0 && ClientPrefix <= k.1
                                        ==> DecodeClient(ItemAt(t, k), now).Success?
    ensures r.Success? ==> forall c :: c in r.value <==>
      exists k :: k in t && ClientPrefix <= k.0 && ClientPrefix <= k.1
                  && DecodeClient(ItemAt(t, k), now) == Success(c)
  {
    var selected := set it | it in Scan(t) && ClientPrefix <= it.key.0 && ClientPrefix <= it.key.1;
    assert forall k :: k in t && ClientPrefix <= k.0 && ClientPrefix <= k.1 ==> ItemAt(t, k) in selected;
    DecodeAll(selected, it => DecodeClient(it, now))
  }

  /** `Client.delete`: afterwards the client is gone; every other item is untouched. */
  function ClientDelete(t: Table, clientId: string): (t': Table)
    ensures forall now: Timestamp :: ClientGetById(t', clientId, now) == Success(None)
    ensures forall k :: k != ClientKey(clientId) ==> (k in t' <==> k in t)
    ensures forall k :: k != ClientKey(clientId) && k in t ==> t'[k] == t[k]
  {
    Delete(t, ClientKey(clientId))
  }
}
