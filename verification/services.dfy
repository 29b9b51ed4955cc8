/**
 * The ledger operations. Each is a pure function from the table before the call
 * to its result and the table after it; the steps are applied in the source's
 * order, so a failure that follows a write leaves that write in place. The
 * transaction id and the clock are parameters; notifications are not modelled
 * (they never change the table).
 */
module Services {
  import opened Wrappers
  import opened Store
  import opened Keys
  import opened Codec
  import opened Repository

  const Cents := 100
  /** Every new client starts with 500,000. */
  const InitialGrant := 500_000 * Cents

  const InitialBalanceFundId := "INITIAL_BALANCE"
  const DepositFundId := "DEPOSIT"

  const InitialGrantType := "SALDO_INICIAL"
  const DepositType := "DEPOSITO"
  const SubscriptionType := "subscription"
  const CancellationType := "cancellation"

  datatype LedgerError =
    | ClientAlreadyExists(clientId: string)
    | ClientNotFound(clientId: string)
    | InvalidAmount(amount: int)
    | FundNotFound(fundId: string)
    | AlreadySubscribed(fund: Fund, existing: Subscription)
    | InsufficientFunds(fund: Fund, required: int, current: int, missing: int)
    | SubscriptionNotFound(fundId: string)
    | Malformed(cause: DecodeError)

  /** What an operation returned, and the table it left behind. */
  datatype Step<T> = Step(result: Result<T, LedgerError>, after: Table)

  datatype Created = Created(client: Client, balance: ClientBalance, transaction: Transaction)
  datatype Deposited = Deposited(newBalance: int, transaction: Transaction)
  datatype Subscribed = Subscribed(subscription: Subscription, transaction: Transaction)
  datatype Cancelled = Cancelled(transaction: Transaction)

  /** Every item outside partition `pk` is as it was. */
  ghost predicate OnlyPartitionChanged(t: Table, t': Table, pk: string) {
    forall k: Key :: k.0 != pk ==> (k in t' <==> k in t) && (k in t ==> t'[k] == t[k])
  }

  // ----- FundService -----

  /** The fixed catalog the service seeds, every fund stamped with the seeding time. */
  function DefaultFunds(now: Timestamp): seq<Fund> {
    [ Fund("1", "FPV_EL CLIENTE_RECAUDADORA", "FPV", 75_000 * Cents, 10_000_000 * Cents, "BAJO",
           Some("Fondo de pensión voluntaria - El Cliente Recaudadora"), now),
      Fund("2", "FPV_EL CLIENTE_ECOPETROL", "FPV", 125_000 * Cents, 10_000_000 * Cents, "MEDIO",
           Some("Fondo de pensión voluntaria - El Cliente Ecopetrol"), now),
      Fund("3", "DEUDAPRIVADA", "FIC", 50_000 * Cents, 5_000_000 * Cents, "BAJO",
           Some("Fondo de inversión colectiva - Deuda Privada"), now),
      Fund("4", "FDO-ACCIONES", "FIC", 250_000 * Cents, 5_000_000 * Cents, "ALTO",
           Some("Fondo de inversión colectiva - Acciones"), now),
      Fund("5", "FPV_EL CLIENTE_DINAMICA", "FPV", 100_000 * Cents, 10_000_000 * Cents, "MEDIO",
           Some("Fondo de pensión voluntaria - El Cliente Dinámica"), now) ]
  }

  function FundKeys(fs: seq<Fund>): set<Key> {
    set f | f in fs :: FundKey(f.fundId)
  }

  /** No later fund in the list has the same id as `fs[i]`. */
  predicate LastWithId(fs: seq<Fund>, i: nat)
    requires i < |fs|
  {
    forall j :: i < j < |fs| ==> fs[j].fundId != fs[i].fundId
  }

  /** Saves the funds in list order; only fund keys of the list can change. */
  function SaveFunds(t: Table, fs: seq<Fund>): (t': Table)
    decreases |fs|
    ensures forall k :: k !in FundKeys(fs) ==> (k in t' <==> k in t) && (k in t ==> t'[k] == t[k])
  {
    if fs == [] then t
    else
      var init := fs[..|fs| - 1];
      assert forall k :: k !in FundKeys(fs) ==> k !in FundKeys(init) && k != FundKey(fs[|fs| - 1].fundId);
      FundSave(SaveFunds(t, init), fs[|fs| - 1])
  }

  /** A fund key ends up holding the last fund of the list with that id. */
  lemma {:induction false} SaveFundsKeepsLast(t: Table, fs: seq<Fund>, i: nat)
    requires i < |fs| && LastWithId(fs, i)
    ensures FundKey(fs[i].fundId) in SaveFunds(t, fs)
    ensures ItemAt(SaveFunds(t, fs), FundKey(fs[i].fundId)) == EncodeFund(fs[i])
    decreases |fs|
  {
    var init := fs[..|fs| - 1];
    if i < |fs| - 1 {
      assert init[i] == fs[i];
      assert LastWithId(init, i);
      SaveFundsKeepsLast(t, init, i);
      FundKeyInjective(fs[|fs| - 1].fundId, fs[i].fundId);
    }
  }

  datatype Seeded = Seeded(after: Table, count: nat)

  /**
   * `FundService.initialize_default_funds`: writes the catalog funds and reports
   * how many it wrote. Nothing outside the catalog's fund keys changes.
   */
  function InitializeDefaultFunds(t: Table, now: Timestamp): (r: Seeded)
    ensures r.count == |DefaultFunds(now)|
    ensures forall k :: k !in FundKeys(DefaultFunds(now)) ==> (k in r.after <==> k in t) && (k in t ==> r.after[k] == t[k])
  {
    var funds := DefaultFunds(now);
    Seeded(SaveFunds(t, funds), |funds|)
  }

  /** The catalog holds five funds, with ids "1" to "5" in that order. */
  lemma CatalogIds(now: Timestamp)
    ensures |DefaultFunds(now)| == 5
    ensures forall i :: 0 <= i < 5 ==> DefaultFunds(now)[i].fundId == ["1", "2", "3", "4", "5"][i]
  {
  }

  /**
   * Besides the ids of `CatalogIds`, the five catalog funds ask for minimums of
   * 75,000, 125,000, 50,000, 250,000 and 100,000, each positive and no larger
   * than its fund's maximum.
   */
  lemma DefaultCatalog(now: Timestamp)
    ensures forall i :: 0 <= i < |DefaultFunds(now)| ==>
      i < 5 && DefaultFunds(now)[i].minAmount == [75_000, 125_000, 50_000, 250_000, 100_000][i] * Cents
    ensures forall f :: f in DefaultFunds(now) ==> 0 < f.minAmount <= f.maxAmount
  {
    CatalogIds(now);
  }

  /** After seeding, every catalog fund reads back by its id, at any clock. */
  lemma InitializeWritesCatalog(t: Table, now: Timestamp, n: Timestamp)
    ensures forall f :: f in DefaultFunds(now) ==>
      FundGetById(InitializeDefaultFunds(t, now).after, f.fundId, n) == Success(Some(f))
  {
    var fs := DefaultFunds(now);
    forall i | 0 <= i < 5
      ensures FundGetById(SaveFunds(t, fs), fs[i].fundId, n) == Success(Some(fs[i]))
    {
      assert LastWithId(fs, i);
      SaveFundsKeepsLast(t, fs, i);
    }
  }

  /** The catalog's fund keys do not depend on when it is seeded. */
  lemma CatalogKeysStable(n1: Timestamp, n2: Timestamp)
    ensures FundKeys(DefaultFunds(n1)) == FundKeys(DefaultFunds(n2))
  {
    CatalogIds(n1);
    CatalogIds(n2);
    var fs1, fs2 := DefaultFunds(n1), DefaultFunds(n2);
    forall k | k in FundKeys(fs1)
      ensures k in FundKeys(fs2)
    {
      var g :| g in fs1 && k == FundKey(g.fundId);
      var i :| 0 <= i < 5 && fs1[i] == g;
      assert fs2[i] in fs2;
    }
    forall k | k in FundKeys(fs2)
      ensures k in FundKeys(fs1)
    {
      var g :| g in fs2 && k == FundKey(g.fundId);
      var i :| 0 <= i < 5 && fs2[i] == g;
      assert fs1[i] in fs1;
    }
  }

  /** Seeding leaves the i-th catalog fund stored under its key. */
  lemma SeededFund(t: Table, now: Timestamp, i: nat)
    requires i < 5
    ensures FundKey(DefaultFunds(now)[i].fundId) in InitializeDefaultFunds(t, now).after
    ensures ItemAt(InitializeDefaultFunds(t, now).after, FundKey(DefaultFunds(now)[i].fundId))
            == EncodeFund(DefaultFunds(now)[i])
  {
    assert LastWithId(DefaultFunds(now), i);
    SaveFundsKeepsLast(t, DefaultFunds(now), i);
  }

  /**
   * Seeding is idempotent: seeding an already seeded table gives the same table
   * as seeding once, with the later clock.
   */
  lemma InitializeIdempotent(t: Table, n1: Timestamp, n2: Timestamp)
    ensures InitializeDefaultFunds(InitializeDefaultFunds(t, n1).after, n2).after
            == InitializeDefaultFunds(t, n2).after
  {
    hide DefaultFunds, SaveFunds;
    var t1 := InitializeDefaultFunds(t, n1).after;
    var a := InitializeDefaultFunds(t1, n2).after;
    var b := InitializeDefaultFunds(t, n2).after;
    var fs := DefaultFunds(n2);
    CatalogIds(n2);
    CatalogKeysStable(n1, n2);
    forall k: Key
      ensures (k in a <==> k in b) && (k in a ==> a[k] == b[k])
    {
      if k in FundKeys(fs) {
        var g :| g in fs && k == FundKey(g.fundId);
        var i :| 0 <= i < 5 && fs[i] == g;
        SeededFund(t1, n2, i);
        SeededFund(t, n2, i);
      }
    }
    assert a.Keys == b.Keys;
  }

  // ----- ClientServiceManager -----

  /**
   * `ClientServiceManager.create_client`. An id already in use is refused with
   * no write; otherwise the client, its balance and its opening transaction are
   * written.
   */
  function CreateClient(t: Table, clientId: string, name: string, surname: string, city: string,
                        email: Option<string>, phone: Option<string>, txId: string, now: Timestamp): (s: Step<Created>)
    ensures ClientKey(clientId) in t <==> s.result.Failure?
    ensures s.result.Failure? ==> s.after == t
  {
    match ClientGetById(t, clientId, now)
    case Failure(e) => Step(Failure(Malformed(e)), t)
    case Success(Some(_)) => Step(Failure(ClientAlreadyExists(clientId)), t)
    case Success(None) =>
      var client := Client(clientId, name, surname, city, email, phone, now);
      var tx := Transaction(txId, clientId, InitialBalanceFundId, InitialGrant, InitialGrantType, Some(CompletedStatus), now);
      Step(Success(Created(client, ClientBalance(clientId, InitialGrant, now), tx)),
           Settle(ClientSave(t, client), clientId, InitialGrant, tx, now))
  }

  /** An existing, readable client makes creation fail with ClientAlreadyExists. */
  lemma CreateClientRefusesExisting(t: Table, clientId: string, name: string, surname: string, city: string,
                                    email: Option<string>, phone: Option<string>, txId: string, now: Timestamp)
    requires ClientKey(clientId) in t && DecodeClient(ItemAt(t, ClientKey(clientId)), now).Success?
    ensures CreateClient(t, clientId, name, surname, city, email, phone, txId, now)
            == Step(Failure(ClientAlreadyExists(clientId)), t)
  {
  }

  /**
   * A successful creation stores the client, a balance of 500,000 and one
   * SALDO_INICIAL transaction of 500,000 against the INITIAL_BALANCE sentinel;
   * those three keys are the only ones added, and nothing else changes.
   */
  lemma CreateClientWrites(t: Table, clientId: string, name: string, surname: string, city: string,
                           email: Option<string>, phone: Option<string>, txId: string, now: Timestamp)
    ensures var s := CreateClient(t, clientId, name, surname, city, email, phone, txId, now);
      s.result.Success? ==>
      var c := s.result.value;
      && c.client == Client(clientId, name, surname, city, email, phone, now)
      && ClientGetById(s.after, clientId, now) == Success(Some(c.client))
      && c.balance == ClientBalance(clientId, InitialGrant, now)
      && BalanceGetByClientId(s.after, clientId, now) == Success(Some(c.balance))
      && c.transaction == Transaction(txId, clientId, InitialBalanceFundId, InitialGrant, InitialGrantType,
                                      Some(CompletedStatus), now)
      && TransactionKey(clientId, txId) in s.after
      && DecodeTransaction(ItemAt(s.after, TransactionKey(clientId, txId)), now) == Success(c.transaction)
      && s.after.Keys == t.Keys + {ClientKey(clientId), BalanceKey(clientId), TransactionKey(clientId, txId)}
      && OnlyKeysChanged(t, s.after, {ClientKey(clientId), BalanceKey(clientId), TransactionKey(clientId, txId)})
  {
    hide DecodeFund, DecodeBalance, DecodeTransaction, DecodeSubscription, DecodeClient;
    hide EncodeFund, EncodeBalance, EncodeTransaction, EncodeSubscription, EncodeClient;
    hide FundShape, BalanceShape, TransactionShape, SubscriptionShape, ClientShape;
    hide BalanceGetByClientId, FundGetById;
    hide Settle, UpdateBalance, PriorBalance;
    var s := CreateClient(t, clientId, name, surname, city, email, phone, txId, now);
    if s.result.Success? {
      var c := s.result.value;
      PartitionKeysDistinct(clientId, txId, "");
      SettleReadsBack(ClientSave(t, c.client), clientId, InitialGrant, c.transaction, now, now);
    }
  }

  /** `ClientServiceManager.get_client`: the stored client, or ClientNotFound. */
  function GetClient(t: Table, clientId: string, now: Timestamp): (r: Result<Client, LedgerError>)
    ensures ClientKey(clientId) !in t ==> r == Failure(ClientNotFound(clientId))
    ensures r.Success? ==> ClientKey(clientId) in t && DecodeClient(ItemAt(t, ClientKey(clientId)), now) == Success(r.value)
    ensures ClientKey(clientId) in t && DecodeClient(ItemAt(t, ClientKey(clientId)), now).Success? ==>
      r == Success(DecodeClient(ItemAt(t, ClientKey(clientId)), now).value)
    ensures ClientKey(clientId) in t && DecodeClient(ItemAt(t, ClientKey(clientId)), now).Failure? ==>
      r == Failure(Malformed(DecodeClient(ItemAt(t, ClientKey(clientId)), now).error))
  {
    match ClientGetById(t, clientId, now)
    case Failure(e) => Failure(Malformed(e))
    case Success(None) => Failure(ClientNotFound(clientId))
    case Success(Some(c)) => Success(c)
  }

  /** A created client is found by `get_client`, at any clock. */
  lemma CreateThenGetClient(t: Table, clientId: string, name: string, surname: string, city: string,
                            email: Option<string>, phone: Option<string>, txId: string, now: Timestamp, n: Timestamp)
    ensures var s := CreateClient(t, clientId, name, surname, city, email, phone, txId, now);
      s.result.Success? ==> GetClient(s.after, clientId, n) == Success(s.result.value.client)
  {
    var s := CreateClient(t, clientId, name, surname, city, email, phone, txId, now);
    if s.result.Success? {
      var c := s.result.value;
      PartitionKeysDistinct(clientId, txId, "");
      assert ClientGetById(ClientSave(t, c.client), clientId, n) == Success(Some(c.client));
    }
  }

  // ----- ClientService -----

  /** The balance a read-or-create would see: the stored one, or 0 when none is stored. */
  function PriorBalance(t: Table, clientId: string, now: Timestamp): int {
    match BalanceGetByClientId(t, clientId, now)
    case Success(Some(b)) => b.balance
    case _ => 0
  }

  /**
   * `ClientService.get_or_create_balance`: returns the stored balance, or stores
   * and returns a new balance of 0 when there is none. The returned balance is
   * the one stored afterwards; only a missing balance causes a write.
   */
  function GetOrCreateBalance(t: Table, clientId: string, now: Timestamp): (s: Step<ClientBalance>)
    ensures BalanceKey(clientId) in t ==> s.after == t
    ensures BalanceKey(clientId) !in t ==> s.result.Success? && s.result.value.balance == 0
    ensures s.result.Success? <==> BalanceGetByClientId(t, clientId, now).Success?
    ensures s.result.Success? ==> BalanceGetByClientId(s.after, clientId, now) == Success(Some(s.result.value))
                                  && s.result.value.balance == PriorBalance(t, clientId, now)
    ensures forall k :: k != BalanceKey(clientId) ==> (k in s.after <==> k in t) && (k in t ==> s.after[k] == t[k])
    ensures s.result.Success? ==> s.after.Keys == t.Keys + {BalanceKey(clientId)}
  {
    match BalanceGetByClientId(t, clientId, now)
    case Failure(e) => Step(Failure(Malformed(e)), t)
    case Success(Some(b)) => Step(Success(b), t)
    case Success(None) =>
      var b := ClientBalance(clientId, 0, now);
      Step(Success(b), BalanceSave(t, b))
  }

  datatype SavedBalance = SavedBalance(balance: ClientBalance, after: Table)

  /** `ClientService.update_balance`: overwrites the client's balance with `newBalance`. */
  function UpdateBalance(t: Table, clientId: string, newBalance: int, now: Timestamp): (r: SavedBalance)
    ensures r.balance.balance == newBalance && r.balance.clientId == clientId
    ensures forall n: Timestamp :: BalanceGetByClientId(r.after, clientId, n) == Success(Some(r.balance))
    ensures forall k :: k != BalanceKey(clientId) ==> (k in r.after <==> k in t) && (k in t ==> r.after[k] == t[k])
  {
    var b := ClientBalance(clientId, newBalance, now);
    SavedBalance(b, BalanceSave(t, b))
  }

  /**
   * The closing writes every balance-moving operation shares: the client's
   * balance is overwritten with `newBalance`, then `tx` is recorded. Those two
   * keys are the only ones added or replaced.
   */
  function Settle(t: Table, clientId: string, newBalance: int, tx: Transaction, now: Timestamp): (t': Table)
    requires tx.clientId == clientId
    ensures t'.Keys == t.Keys + {BalanceKey(clientId), TransactionKey(clientId, tx.transactionId)}
    ensures OnlyKeysChanged(t, t', {BalanceKey(clientId), TransactionKey(clientId, tx.transactionId)})
  {
    TransactionSave(UpdateBalance(t, clientId, newBalance, now).after, tx)
  }

  /** After settling, the new balance and the transaction both read back, at any clock. */
  lemma SettleReadsBack(t: Table, clientId: string, newBalance: int, tx: Transaction, now: Timestamp, n: Timestamp)
    requires tx.clientId == clientId
    ensures BalanceGetByClientId(Settle(t, clientId, newBalance, tx, now), clientId, n)
            == Success(Some(ClientBalance(clientId, newBalance, now)))
    ensures DecodeTransaction(ItemAt(Settle(t, clientId, newBalance, tx, now), TransactionKey(clientId, tx.transactionId)), n)
            == Success(tx)
  {
    PartitionKeysDistinct(clientId, tx.transactionId, "");
    var u := UpdateBalance(t, clientId, newBalance, now);
    assert BalanceGetByClientId(u.after, clientId, n) == Success(Some(u.balance));
  }

  /**
   * `ClientService.deposit`. Every failure leaves the table as it was.
   */
  function Deposit(t: Table, clientId: string, amount: int, txId: string, now: Timestamp): (s: Step<Deposited>)
    ensures s.result.Failure? ==> s.after == t
  {
    match ClientGetById(t, clientId, now)
    case Failure(e) => Step(Failure(Malformed(e)), t)
    case Success(None) => Step(Failure(ClientNotFound(clientId)), t)
    case Success(Some(_)) =>
      if amount <= 0 then Step(Failure(InvalidAmount(amount)), t)
      else
        var current := GetOrCreateBalance(t, clientId, now);
        match current.result
        case Failure(e) => Step(Failure(e), current.after)
        case Success(b) =>
          var tx := Transaction(txId, clientId, DepositFundId, amount, DepositType, Some(CompletedStatus), now);
          Step(Success(Deposited(b.balance + amount, tx)), Settle(current.after, clientId, b.balance + amount, tx, now))
  }

  /**
   * The deposit guards, in order: a missing client is refused first, then a
   * non-positive amount; with a readable client, a positive amount and a
   * readable (or absent) balance the deposit succeeds.
   */
  lemma DepositGuards(t: Table, clientId: string, amount: int, txId: string, now: Timestamp)
    ensures ClientKey(clientId) !in t ==> Deposit(t, clientId, amount, txId, now) == Step(Failure(ClientNotFound(clientId)), t)
    ensures ClientGetById(t, clientId, now).Success? && ClientKey(clientId) in t && amount <= 0 ==>
      Deposit(t, clientId, amount, txId, now) == Step(Failure(InvalidAmount(amount)), t)
    ensures (ClientGetById(t, clientId, now).Success? && ClientKey(clientId) in t && amount > 0
             && BalanceGetByClientId(t, clientId, now).Success?) ==> Deposit(t, clientId, amount, txId, now).result.Success?
  {
  }

  /**
   * A successful deposit sets the balance to the prior balance (0 if none) plus
   * `amount` and writes one DEPOSITO transaction of `amount` against the DEPOSIT
   * sentinel; only the balance and that transaction change.
   */
  lemma DepositCredits(t: Table, clientId: string, amount: int, txId: string, now: Timestamp)
    ensures var s := Deposit(t, clientId, amount, txId, now);
      s.result.Success? ==>
      var d := s.result.value;
      && ClientKey(clientId) in t && amount > 0
      && d.newBalance == PriorBalance(t, clientId, now) + amount
      && BalanceGetByClientId(s.after, clientId, now) == Success(Some(ClientBalance(clientId, d.newBalance, now)))
      && d.transaction == Transaction(txId, clientId, DepositFundId, amount, DepositType, Some(CompletedStatus), now)
      && TransactionKey(clientId, txId) in s.after
      && DecodeTransaction(ItemAt(s.after, TransactionKey(clientId, txId)), now) == Success(d.transaction)
      && s.after.Keys == t.Keys + {BalanceKey(clientId), TransactionKey(clientId, txId)}
      && OnlyKeysChanged(t, s.after, {BalanceKey(clientId), TransactionKey(clientId, txId)})
  {
    hide GetOrCreateBalance, BalanceGetByClientId, FundGetById;
    hide Settle, UpdateBalance, PriorBalance;
    var s := Deposit(t, clientId, amount, txId, now);
    if s.result.Success? {
      var current := GetOrCreateBalance(t, clientId, now);
      SettleReadsBack(current.after, clientId, s.result.value.newBalance, s.result.value.transaction, now, now);
    }
  }

  // ----- SubscriptionService -----

  /**
   * The part of `subscribe_to_fund` that follows the balance read: with `balance`
   * in hand, a pair that already has a subscription is refused, then a balance
   * below the fund's minimum; otherwise the subscription is stored, the minimum
   * is charged and a subscription transaction is recorded. A refusal writes
   * nothing.
   */
  function Enroll(t: Table, clientId: string, fundId: string, fund: Fund, balance: int, txId: string, now: Timestamp)
    : (s: Step<Subscribed>)
    ensures s.result.Failure? ==> s.after == t
  {
    match SubscriptionGetByClientAndFund(t, clientId, fundId, now)
    case Failure(e) => Step(Failure(Malformed(e)), t)
    case Success(Some(existing)) => Step(Failure(AlreadySubscribed(fund, existing)), t)
    case Success(None) =>
      var amount := fund.minAmount;
      if balance < amount then
        Step(Failure(InsufficientFunds(fund, amount, balance, amount - balance)), t)
      else
        var sub := Subscription(clientId, fundId, amount, now);
        var tx := Transaction(txId, clientId, fundId, amount, SubscriptionType, Some(CompletedStatus), now);
        Step(Success(Subscribed(sub, tx)), Settle(SubscriptionSave(t, sub), clientId, balance - amount, tx, now))
  }

  /**
   * Enrolment goes through exactly when the pair has no subscription and the
   * balance covers the minimum; a duplicate is reported only for a stored pair,
   * and a shortfall reports the minimum, the balance and their difference.
   */
  lemma EnrollGuards(t: Table, clientId: string, fundId: string, fund: Fund, balance: int, txId: string, now: Timestamp)
    ensures var s := Enroll(t, clientId, fundId, fund, balance, txId, now);
      && (s.result.Success? <==> SubscriptionKey(clientId, fundId) !in t && balance >= fund.minAmount)
      && (s.result.Failure? && s.result.error.AlreadySubscribed? ==> SubscriptionKey(clientId, fundId) in t)
      && (s.result.Failure? && s.result.error.InsufficientFunds? ==>
            && balance < fund.minAmount
            && s.result.error == InsufficientFunds(fund, fund.minAmount, balance, fund.minAmount - balance))
  {
  }

  /**
   * A successful enrolment stores a subscription for the fund's minimum, sets
   * the balance to `balance` minus that minimum and records one subscription
   * transaction of it; those three keys are the only ones that change.
   */
  lemma EnrollCharges(t: Table, clientId: string, fundId: string, fund: Fund, balance: int, txId: string, now: Timestamp)
    ensures var s := Enroll(t, clientId, fundId, fund, balance, txId, now);
      s.result.Success? ==>
      && s.result.value.subscription == Subscription(clientId, fundId, fund.minAmount, now)
      && s.result.value.transaction
         == Transaction(txId, clientId, fundId, fund.minAmount, SubscriptionType, Some(CompletedStatus), now)
      && SubscriptionGetByClientAndFund(s.after, clientId, fundId, now) == Success(Some(s.result.value.subscription))
      && BalanceGetByClientId(s.after, clientId, now) == Success(Some(ClientBalance(clientId, balance - fund.minAmount, now)))
      && TransactionKey(clientId, txId) in s.after
      && DecodeTransaction(ItemAt(s.after, TransactionKey(clientId, txId)), now) == Success(s.result.value.transaction)
      && s.after.Keys == t.Keys + {SubscriptionKey(clientId, fundId), BalanceKey(clientId), TransactionKey(clientId, txId)}
      && OnlyKeysChanged(t, s.after, {SubscriptionKey(clientId, fundId), BalanceKey(clientId), TransactionKey(clientId, txId)})
  {
    hide BalanceGetByClientId, ClientGetById, FundGetById;
    hide Settle, UpdateBalance, PriorBalance;
    var s := Enroll(t, clientId, fundId, fund, balance, txId, now);
    if s.result.Success? {
      PartitionKeysDistinct(clientId, txId, fundId);
      var sub := s.result.value.subscription;
      var t1 := SubscriptionSave(t, sub);
      SettleReadsBack(t1, clientId, balance - fund.minAmount, s.result.value.transaction, now, now);
      assert SubscriptionGetByClientAndFund(t1, clientId, fundId, now) == Success(Some(sub));
    }
  }

  /**
   * `SubscriptionService.subscribe_to_fund`, charging exactly the fund's minimum.
   * A failure writes nothing, except that a client without a balance item gets
   * one of 0 first.
   */
  function Subscribe(t: Table, clientId: string, fundId: string, txId: string, now: Timestamp): (s: Step<Subscribed>)
    ensures s.result.Failure? ==>
      || s.after == t
      || (&& ClientKey(clientId) in t && BalanceKey(clientId) !in t
          && s.after == BalanceSave(t, ClientBalance(clientId, 0, now)))
  {
    match ClientGetById(t, clientId, now)
    case Failure(e) => Step(Failure(Malformed(e)), t)
    case Success(None) => Step(Failure(ClientNotFound(clientId)), t)
    case Success(Some(_)) =>
      match FundGetById(t, fundId, now)
      case Failure(e) => Step(Failure(Malformed(e)), t)
      case Success(None) => Step(Failure(FundNotFound(fundId)), t)
      case Success(Some(fund)) =>
        var current := GetOrCreateBalance(t, clientId, now);
        match current.result
        case Failure(e) => Step(Failure(e), current.after)
        case Success(b) => Enroll(current.after, clientId, fundId, fund, b.balance, txId, now)
  }

  /**
   * The subscribe guards: a missing client, then a missing fund, are refused
   * with no write; a duplicate is refused only when the pair already has a
   * subscription; an insufficient balance reports the fund's minimum as the
   * required amount and a positive shortfall of required minus current.
   */
  lemma SubscribeGuards(t: Table, clientId: string, fundId: string, txId: string, now: Timestamp)
    ensures ClientKey(clientId) !in t ==>
      Subscribe(t, clientId, fundId, txId, now) == Step(Failure(ClientNotFound(clientId)), t)
    ensures ClientGetById(t, clientId, now).Success? && ClientKey(clientId) in t && FundKey(fundId) !in t ==>
      Subscribe(t, clientId, fundId, txId, now) == Step(Failure(FundNotFound(fundId)), t)
    ensures var r := Subscribe(t, clientId, fundId, txId, now).result;
      r.Failure? && r.error.AlreadySubscribed? ==> SubscriptionKey(clientId, fundId) in t
    ensures var r := Subscribe(t, clientId, fundId, txId, now).result;
      r.Failure? && r.error.InsufficientFunds? ==>
      var e := r.error;
      && FundGetById(t, fundId, now) == Success(Some(e.fund))
      && e.required == e.fund.minAmount
      && e.current == PriorBalance(t, clientId, now)
      && e.missing == e.required - e.current > 0
  {
    var s := Subscribe(t, clientId, fundId, txId, now);
    var current := GetOrCreateBalance(t, clientId, now);
    PartitionKeysDistinct(clientId, txId, fundId);
    match FundGetById(t, fundId, now)
    case Success(Some(fund)) =>
      if current.result.Success? {
        EnrollGuards(current.after, clientId, fundId, fund, current.result.value.balance, txId, now);
      }
    case _ =>
  }

  /**
   * A subscription goes through exactly when the client and fund exist and are
   * readable, the balance is readable or absent, the pair has no subscription,
   * and the balance covers the fund's minimum (equality suffices).
   */
  lemma SubscribeSucceedsWhen(t: Table, clientId: string, fundId: string, txId: string, now: Timestamp)
    ensures Subscribe(t, clientId, fundId, txId, now).result.Success? <==>
      && ClientGetById(t, clientId, now).Success? && ClientKey(clientId) in t
      && FundGetById(t, fundId, now).Success? && FundKey(fundId) in t
      && BalanceGetByClientId(t, clientId, now).Success?
      && SubscriptionKey(clientId, fundId) !in t
      && PriorBalance(t, clientId, now) >= FundGetById(t, fundId, now).value.value.minAmount
  {
    var current := GetOrCreateBalance(t, clientId, now);
    PartitionKeysDistinct(clientId, txId, fundId);
    match FundGetById(t, fundId, now)
    case Success(Some(fund)) =>
      if current.result.Success? {
        EnrollGuards(current.after, clientId, fundId, fund, current.result.value.balance, txId, now);
      }
    case _ =>
  }

  /**
   * With the client, the fund and the balance readable, a pair that already has a
   * readable subscription is refused as a duplicate, and nothing is written.
   */
  lemma SubscribeRefusesDuplicate(t: Table, clientId: string, fundId: string, txId: string, now: Timestamp)
    requires ClientKey(clientId) in t && ClientGetById(t, clientId, now).Success?
    requires FundKey(fundId) in t && FundGetById(t, fundId, now).Success?
    requires BalanceKey(clientId) in t && BalanceGetByClientId(t, clientId, now).Success?
    requires SubscriptionKey(clientId, fundId) in t && SubscriptionGetByClientAndFund(t, clientId, fundId, now).Success?
    ensures var s := Subscribe(t, clientId, fundId, txId, now);
      s.result.Failure? && s.result.error.AlreadySubscribed? && s.after == t
  {
  }

  /**
   * A successful subscription stores a subscription for the fund's minimum,
   * lowers the balance by that amount and writes one subscription transaction of
   * it; those three keys are the only ones that change.
   */
  lemma SubscribeCharges(t: Table, clientId: string, fundId: string, txId: string, now: Timestamp)
    ensures var s := Subscribe(t, clientId, fundId, txId, now);
      s.result.Success? ==>
      var sub := s.result.value.subscription;
      && FundGetById(t, fundId, now).Success? && FundGetById(t, fundId, now).value.Some?
      && sub == Subscription(clientId, fundId, FundGetById(t, fundId, now).value.value.minAmount, now)
      && SubscriptionGetByClientAndFund(s.after, clientId, fundId, now) == Success(Some(sub))
      && BalanceGetByClientId(s.after, clientId, now)
         == Success(Some(ClientBalance(clientId, PriorBalance(t, clientId, now) - sub.amount, now)))
      && s.result.value.transaction
         == Transaction(txId, clientId, fundId, sub.amount, SubscriptionType, Some(CompletedStatus), now)
      && TransactionKey(clientId, txId) in s.after
      && DecodeTransaction(ItemAt(s.after, TransactionKey(clientId, txId)), now) == Success(s.result.value.transaction)
      && s.after.Keys == t.Keys + {SubscriptionKey(clientId, fundId), BalanceKey(clientId), TransactionKey(clientId, txId)}
      && OnlyKeysChanged(t, s.after, {SubscriptionKey(clientId, fundId), BalanceKey(clientId), TransactionKey(clientId, txId)})
  {
    hide DecodeFund, DecodeBalance, DecodeTransaction, DecodeSubscription, DecodeClient;
    hide EncodeFund, EncodeBalance, EncodeTransaction, EncodeSubscription, EncodeClient;
    hide FundShape, BalanceShape, TransactionShape, SubscriptionShape, ClientShape;
    hide GetOrCreateBalance, Settle, UpdateBalance, PriorBalance;
    hide Subscribe, Enroll, ClientGetById, BalanceGetByClientId, SubscriptionGetByClientAndFund;
    var s := Subscribe(t, clientId, fundId, txId, now);
    if s.result.Success? {
      SubscribeEnrolls(t, clientId, fundId, txId, now);
      var fund := FundGetById(t, fundId, now).value.value;
      var current := GetOrCreateBalance(t, clientId, now);
      EnrollCharges(current.after, clientId, fundId, fund, PriorBalance(t, clientId, now), txId, now);
    }
  }

  /** A successful subscription is an enrolment on the table the balance read leaves behind. */
  lemma SubscribeEnrolls(t: Table, clientId: string, fundId: string, txId: string, now: Timestamp)
    ensures var s := Subscribe(t, clientId, fundId, txId, now);
      s.result.Success? ==>
      && FundGetById(t, fundId, now).Success? && FundGetById(t, fundId, now).value.Some?
      && GetOrCreateBalance(t, clientId, now).result.Success?
      && s == Enroll(GetOrCreateBalance(t, clientId, now).after, clientId, fundId,
                     FundGetById(t, fundId, now).value.value, PriorBalance(t, clientId, now), txId, now)
  {
  }

  /**
   * The part of `cancel_subscription` that follows the delete: the balance is
   * read (or created at 0), `amount` is added back and a cancellation
   * transaction is recorded. It fails, writing nothing, only on an unreadable
   * balance.
   */
  function Refund(t: Table, clientId: string, fundId: string, amount: int, txId: string, now: Timestamp)
    : (s: Step<Cancelled>)
    ensures s.result.Failure? ==> s.after == t
    ensures s.result.Success? <==> BalanceGetByClientId(t, clientId, now).Success?
  {
    var current := GetOrCreateBalance(t, clientId, now);
    match current.result
    case Failure(e) => Step(Failure(e), current.after)
    case Success(b) =>
      var tx := Transaction(txId, clientId, fundId, amount, CancellationType, Some(CompletedStatus), now);
      Step(Success(Cancelled(tx)), Settle(current.after, clientId, b.balance + amount, tx, now))
  }

  /**
   * A successful refund adds `amount` to the prior balance (0 if none) and
   * records one cancellation transaction of `amount`; only the balance and that
   * transaction change.
   */
  lemma RefundCredits(t: Table, clientId: string, fundId: string, amount: int, txId: string, now: Timestamp)
    ensures var s := Refund(t, clientId, fundId, amount, txId, now);
      s.result.Success? ==>
      var tx := Transaction(txId, clientId, fundId, amount, CancellationType, Some(CompletedStatus), now);
      && s.result.value == Cancelled(tx)
      && BalanceGetByClientId(s.after, clientId, now)
         == Success(Some(ClientBalance(clientId, PriorBalance(t, clientId, now) + amount, now)))
      && TransactionKey(clientId, txId) in s.after
      && DecodeTransaction(ItemAt(s.after, TransactionKey(clientId, txId)), now) == Success(tx)
      && s.after.Keys == t.Keys + {BalanceKey(clientId), TransactionKey(clientId, txId)}
      && OnlyKeysChanged(t, s.after, {BalanceKey(clientId), TransactionKey(clientId, txId)})
  {
    hide DecodeFund, DecodeBalance, DecodeTransaction, DecodeSubscription, DecodeClient;
    hide EncodeFund, EncodeBalance, EncodeTransaction, EncodeSubscription, EncodeClient;
    hide FundShape, BalanceShape, TransactionShape, SubscriptionShape, ClientShape;
    hide GetOrCreateBalance, BalanceGetByClientId, ClientGetById, FundGetById;
    hide Settle, UpdateBalance, PriorBalance;
    var s := Refund(t, clientId, fundId, amount, txId, now);
    if s.result.Success? {
      var current := GetOrCreateBalance(t, clientId, now);
      SettleReadsBack(current.after, clientId, current.result.value.balance + amount, s.result.value.transaction, now, now);
    }
  }

  /**
   * `SubscriptionService.cancel_subscription`. A failure writes nothing, except
   * when the balance turns out unreadable after the subscription was deleted.
   */
  function CancelSubscription(t: Table, clientId: string, fundId: string, txId: string, now: Timestamp): (s: Step<Cancelled>)
    ensures s.result.Failure? ==>
      || s.after == t
      || (&& SubscriptionKey(clientId, fundId) in t
          && BalanceGetByClientId(SubscriptionDelete(t, clientId, fundId), clientId, now).Failure?
          && s.after == SubscriptionDelete(t, clientId, fundId))
  {
    match FundGetById(t, fundId, now)
    case Failure(e) => Step(Failure(Malformed(e)), t)
    case Success(None) => Step(Failure(FundNotFound(fundId)), t)
    case Success(Some(fund)) =>
      match SubscriptionGetByClientAndFund(t, clientId, fundId, now)
      case Failure(e) => Step(Failure(Malformed(e)), t)
      case Success(None) => Step(Failure(SubscriptionNotFound(fundId)), t)
      case Success(Some(sub)) => Refund(SubscriptionDelete(t, clientId, fundId), clientId, fundId, sub.amount, txId, now)
  }

  /** Deleting a subscription leaves the client's balance reading unchanged. */
  lemma DeleteKeepsBalance(t: Table, clientId: string, fundId: string, now: Timestamp)
    ensures BalanceGetByClientId(SubscriptionDelete(t, clientId, fundId), clientId, now)
            == BalanceGetByClientId(t, clientId, now)
    ensures PriorBalance(SubscriptionDelete(t, clientId, fundId), clientId, now) == PriorBalance(t, clientId, now)
  {
    PartitionKeysDistinct(clientId, "", fundId);
    var t1 := SubscriptionDelete(t, clientId, fundId);
    if BalanceKey(clientId) in t {
      assert ItemAt(t1, BalanceKey(clientId)) == ItemAt(t, BalanceKey(clientId));
    }
  }

  /**
   * The cancel guards: a missing fund, then a missing subscription, are refused
   * with no write (the client is never looked up); with a readable fund,
   * subscription and balance the cancellation succeeds.
   */
  lemma CancelGuards(t: Table, clientId: string, fundId: string, txId: string, now: Timestamp)
    ensures FundKey(fundId) !in t ==>
      CancelSubscription(t, clientId, fundId, txId, now) == Step(Failure(FundNotFound(fundId)), t)
    ensures FundGetById(t, fundId, now).Success? && FundKey(fundId) in t && SubscriptionKey(clientId, fundId) !in t ==>
      CancelSubscription(t, clientId, fundId, txId, now) == Step(Failure(SubscriptionNotFound(fundId)), t)
    ensures (&& FundGetById(t, fundId, now).Success? && FundKey(fundId) in t
             && SubscriptionKey(clientId, fundId) in t
             && SubscriptionGetByClientAndFund(t, clientId, fundId, now).Success?
             && BalanceGetByClientId(t, clientId, now).Success?)
            ==> CancelSubscription(t, clientId, fundId, txId, now).result.Success?
  {
    DeleteKeepsBalance(t, clientId, fundId, now);
  }

  /**
   * A successful cancellation deletes the subscription, adds its stored amount
   * back to the balance and writes one cancellation transaction of that amount;
   * nothing else changes.
   */
  lemma CancelRefunds(t: Table, clientId: string, fundId: string, txId: string, now: Timestamp)
    ensures var s := CancelSubscription(t, clientId, fundId, txId, now);
      s.result.Success? ==>
      var tx := s.result.value.transaction;
      && SubscriptionKey(clientId, fundId) in t
      && DecodeSubscription(ItemAt(t, SubscriptionKey(clientId, fundId)), now).Success?
      && var refund := DecodeSubscription(ItemAt(t, SubscriptionKey(clientId, fundId)), now).value.amount;
      && SubscriptionKey(clientId, fundId) !in s.after
      && BalanceGetByClientId(s.after, clientId, now)
         == Success(Some(ClientBalance(clientId, PriorBalance(t, clientId, now) + refund, now)))
      && tx == Transaction(txId, clientId, fundId, refund, CancellationType, Some(CompletedStatus), now)
      && TransactionKey(clientId, txId) in s.after
      && DecodeTransaction(ItemAt(s.after, TransactionKey(clientId, txId)), now) == Success(tx)
      && s.after.Keys == t.Keys - {SubscriptionKey(clientId, fundId)} + {BalanceKey(clientId), TransactionKey(clientId, txId)}
      && OnlyKeysChanged(t, s.after, {SubscriptionKey(clientId, fundId), BalanceKey(clientId), TransactionKey(clientId, txId)})
  {
    hide DecodeFund, DecodeBalance, DecodeTransaction, DecodeSubscription, DecodeClient;
    hide EncodeFund, EncodeBalance, EncodeTransaction, EncodeSubscription, EncodeClient;
    hide FundShape, BalanceShape, TransactionShape, SubscriptionShape, ClientShape;
    hide GetOrCreateBalance, Settle, UpdateBalance, PriorBalance;
    hide Refund;
    var s := CancelSubscription(t, clientId, fundId, txId, now);
    if s.result.Success? {
      var sub := SubscriptionGetByClientAndFund(t, clientId, fundId, now).value.value;
      var t1 := SubscriptionDelete(t, clientId, fundId);
      PartitionKeysDistinct(clientId, txId, fundId);
      DeleteKeepsBalance(t, clientId, fundId, now);
      RefundCredits(t1, clientId, fundId, sub.amount, txId, now);
    }
  }
}
