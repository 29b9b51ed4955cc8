/**
 * Key derivation for the five entity kinds sharing the table. Every key is a
 * fixed prefix followed by an identifier; the sort-key prefixes of the five kinds
 * begin with five different letters, which is what keeps the kinds apart.
 */
module Keys {
  import opened Store

  const FundPrefix := "FUND#"
  const ClientPrefix := "CLIENT#"
  const BalanceSortKey := "BALANCE"
  const TransactionPrefix := "TRANSACTION#"
  const SubscriptionPrefix := "SUBSCRIPTION#"

  /** The partition holding a client and its balance, transactions and subscriptions. */
  function ClientPartition(clientId: string): string {
    ClientPrefix + clientId
  }

  function FundKey(fundId: string): Key {
    (FundPrefix + fundId, FundPrefix + fundId)
  }

  function ClientKey(clientId: string): Key {
    (ClientPartition(clientId), ClientPrefix + clientId)
  }

  function BalanceKey(clientId: string): Key {
    (ClientPartition(clientId), BalanceSortKey)
  }

  function TransactionKey(clientId: string, transactionId: string): Key {
    (ClientPartition(clientId), TransactionPrefix + transactionId)
  }

  function SubscriptionKey(clientId: string, fundId: string): Key {
    (ClientPartition(clientId), SubscriptionPrefix + fundId)
  }

  /** What identifies one stored entity: its kind and the ids its key is built from. */
  datatype EntityId =
    | FundId(fundId: string)
    | ClientId(clientId: string)
    | BalanceOf(clientId: string)
    | TransactionId(clientId: string, transactionId: string)
    | SubscriptionId(clientId: string, fundId: string)

  function KeyOf(e: EntityId): Key {
    match e
    case FundId(f) => FundKey(f)
    case ClientId(c) => ClientKey(c)
    case BalanceOf(c) => BalanceKey(c)
    case TransactionId(c, t) => TransactionKey(c, t)
    case SubscriptionId(c, f) => SubscriptionKey(c, f)
  }

  /** The sort key alone determines the kind: this is the first letter of it. */
  function KindLetter(e: EntityId): char {
    match e
    case FundId(_) => 'F'
    case ClientId(_) => 'C'
    case BalanceOf(_) => 'B'
    case TransactionId(_, _) => 'T'
    case SubscriptionId(_, _) => 'S'
  }

  lemma PrefixCancels(p: string, x: string, y: string)
    requires p + x == p + y
    ensures x == y
  {
    assert x == (p + x)[|p|..];
    assert y == (p + y)[|p|..];
  }

  lemma PrefixFirst(s: string, p: string)
    requires p <= s && |p| > 0
    ensures s[0] == p[0]
  {
    assert s[..|p|][0] == s[0];
  }

  lemma PrefixOfConcat(p: string, x: string)
    ensures p <= p + x
  {
    assert (p + x)[..|p|] == p;
  }

  /** Every sort key is non-empty and begins with its kind's letter. */
  lemma {:induction false} SortKeyLetter(e: EntityId)
    ensures |KeyOf(e).1| > 0 && KeyOf(e).1[0] == KindLetter(e)
  {
    match e
    case FundId(f) =>
      assert KeyOf(e).1 == FundPrefix + f;
    case ClientId(c) =>
      assert KeyOf(e).1 == ClientPrefix + c;
    case BalanceOf(c) =>
    case TransactionId(c, t) =>
      assert KeyOf(e).1 == TransactionPrefix + t;
    case SubscriptionId(c, f) =>
      assert KeyOf(e).1 == SubscriptionPrefix + f;
  }

  /**
   * No collision: two entities share a key exactly when they are the same kind
   * with the same ids.
   */
  lemma {:induction false} KeyOfInjective(a: EntityId, b: EntityId)
    ensures KeyOf(a) == KeyOf(b) <==> a == b
  {
    if KeyOf(a) == KeyOf(b) {
      SortKeyLetter(a);
      SortKeyLetter(b);
      assert KindLetter(a) == KindLetter(b);
      match a
      case FundId(f) =>
        PrefixCancels(FundPrefix, f, b.fundId);
      case ClientId(c) =>
        PrefixCancels(ClientPrefix, c, b.clientId);
      case BalanceOf(c) =>
        PrefixCancels(ClientPrefix, c, b.clientId);
      case TransactionId(c, t) =>
        PrefixCancels(ClientPrefix, c, b.clientId);
        PrefixCancels(TransactionPrefix, t, b.transactionId);
      case SubscriptionId(c, f) =>
        PrefixCancels(ClientPrefix, c, b.clientId);
        PrefixCancels(SubscriptionPrefix, f, b.fundId);
    }
  }

  /** Different clients own different partitions. */
  lemma ClientPartitionInjective(c: string, d: string)
    ensures ClientPartition(c) == ClientPartition(d) <==> c == d
  {
    if ClientPartition(c) == ClientPartition(d) {
      PrefixCancels(ClientPrefix, c, d);
    }
  }

  /** A fund key never lies in a client partition. */
  lemma FundKeyOutsideClients(f: string, c: string)
    ensures FundKey(f).0 != ClientPartition(c)
  {
    assert FundKey(f).0[0] == 'F';
    assert ClientPartition(c)[0] == 'C';
  }

  /**
   * The catalog scan keeps an item when its partition key begins with the fund
   * prefix: exactly the fund entities.
   */
  lemma {:induction false} FundSelectionExact(e: EntityId)
    ensures FundPrefix <= KeyOf(e).0 <==> e.FundId?
  {
    if e.FundId? {
      PrefixOfConcat(FundPrefix, e.fundId);
    } else if FundPrefix <= KeyOf(e).0 {
      PrefixFirst(KeyOf(e).0, FundPrefix);
      assert false;
    }
  }

  /**
   * The client listing keeps an item when both key parts begin with the client
   * prefix: exactly the client entities, never a balance, transaction or
   * subscription.
   */
  lemma {:induction false} ClientSelectionExact(e: EntityId)
    ensures ClientPrefix <= KeyOf(e).0 && ClientPrefix <= KeyOf(e).1 <==> e.ClientId?
  {
    SortKeyLetter(e);
    if e.ClientId? {
      PrefixOfConcat(ClientPrefix, e.clientId);
    } else if ClientPrefix <= KeyOf(e).1 {
      PrefixFirst(KeyOf(e).1, ClientPrefix);
      assert false;
    }
  }

  /**
   * Querying partition `c` with the transaction prefix selects exactly the
   * transactions of client `c`.
   */
  lemma {:induction false} TransactionQueryExact(c: string, e: EntityId)
    ensures KeyOf(e).0 == ClientPartition(c) && TransactionPrefix <= KeyOf(e).1
        <==> e.TransactionId? && e.clientId == c
  {
    SortKeyLetter(e);
    if e.TransactionId? {
      PrefixOfConcat(TransactionPrefix, e.transactionId);
      ClientPartitionInjective(c, e.clientId);
    } else if TransactionPrefix <= KeyOf(e).1 {
      PrefixFirst(KeyOf(e).1, TransactionPrefix);
      assert false;
    }
  }

  /**
   * Querying partition `c` with the subscription prefix selects exactly the
   * subscriptions of client `c`.
   */
  lemma {:induction false} SubscriptionQueryExact(c: string, e: EntityId)
    ensures KeyOf(e).0 == ClientPartition(c) && SubscriptionPrefix <= KeyOf(e).1
        <==> e.SubscriptionId? && e.clientId == c
  {
    SortKeyLetter(e);
    if e.SubscriptionId? {
      PrefixOfConcat(SubscriptionPrefix, e.fundId);
      ClientPartitionInjective(c, e.clientId);
    } else if SubscriptionPrefix <= KeyOf(e).1 {
      PrefixFirst(KeyOf(e).1, SubscriptionPrefix);
      assert false;
    }
  }

  lemma FundKeyInjective(a: string, b: string)
    ensures FundKey(a) == FundKey(b) <==> a == b
  {
    KeyOfInjective(FundId(a), FundId(b));
  }

  /**
   * The four kinds of item in one client's partition never share a key, and no
   * fund key lies in that partition.
   */
  lemma PartitionKeysDistinct(c: string, transactionId: string, fundId: string)
    ensures ClientKey(c) != BalanceKey(c)
    ensures ClientKey(c) != TransactionKey(c, transactionId)
    ensures ClientKey(c) != SubscriptionKey(c, fundId)
    ensures BalanceKey(c) != TransactionKey(c, transactionId)
    ensures BalanceKey(c) != SubscriptionKey(c, fundId)
    ensures TransactionKey(c, transactionId) != SubscriptionKey(c, fundId)
    ensures FundKey(fundId).0 != ClientPartition(c)
  {
    var ids := [ClientId(c), BalanceOf(c), TransactionId(c, transactionId), SubscriptionId(c, fundId)];
    forall i, j | 0 <= i < j < 4
      ensures KeyOf(ids[i]) != KeyOf(ids[j])
    {
      KeyOfInjective(ids[i], ids[j]);
    }
    assert KeyOf(ids[0]) != KeyOf(ids[1]);
    assert KeyOf(ids[0]) != KeyOf(ids[2]);
    assert KeyOf(ids[0]) != KeyOf(ids[3]);
    assert KeyOf(ids[1]) != KeyOf(ids[2]);
    assert KeyOf(ids[1]) != KeyOf(ids[3]);
    assert KeyOf(ids[2]) != KeyOf(ids[3]);
    FundKeyOutsideClients(fundId, c);
  }
}
