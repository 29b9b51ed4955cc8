/**
 * The five entities and their item codec. Encoding writes every attribute
 * (absent optional values as NULL); decoding reads required attributes strictly
 * and optional ones leniently, and fills a missing timestamp with the clock, as
 * the entity constructors do.
 */
module Codec {
  import opened Wrappers
  import opened Store
  import opened Keys

  /** An ISO-8601 instant as produced by the clock; never empty. */
  type Timestamp = s: string | s != "" witness "1970-01-01T00:00:00"

  /** Amounts are fixed-point decimals with two places, held as whole cents. */
  datatype Fund = Fund(
    fundId: string,
    name: string,
    fundType: string,
    minAmount: int,
    maxAmount: int,
    riskLevel: string,
    description: Option<string>,
    createdAt: Timestamp)

  datatype ClientBalance = ClientBalance(clientId: string, balance: int, updatedAt: Timestamp)

  datatype Transaction = Transaction(
    transactionId: string,
    clientId: string,
    fundId: string,
    amount: int,
    transactionType: string,
    status: Option<string>,
    createdAt: Timestamp)

  datatype Subscription = Subscription(clientId: string, fundId: string, amount: int, subscriptionDate: Timestamp)

  datatype Client = Client(
    clientId: string,
    name: string,
    surname: string,
    city: string,
    email: Option<string>,
    phone: Option<string>,
    createdAt: Timestamp)

  /** Why an item could not be read back as an entity. */
  datatype DecodeError =
    | BadAttribute(key: Key, attribute: string)
    | MalformedItems(keys: set<Key>)

  const CompletedStatus := "completed"

  /** The constructors' `value or utcnow()`: an absent or empty timestamp becomes `now`. */
  function Stamp(given: Option<string>, now: Timestamp): (r: Timestamp)
    ensures given.Some? && given.value != "" ==> r == given.value
    ensures given.None? || given.value == "" ==> r == now
  {
    if given.Some? && given.value != "" then given.value else now
  }

  function Nullable(v: Option<string>): Value {
    if v.Some? then Str(v.value) else Null
  }

  /** `a` holds a string. */
  predicate IsText(it: Item, a: string) {
    a in it.attrs && it.attrs[a].Str?
  }

  /** `a` holds an amount. */
  predicate IsAmount(it: Item, a: string) {
    a in it.attrs && it.attrs[a].Num?
  }

  /** `a` is absent, NULL or a string. */
  predicate IsOptionalText(it: Item, a: string) {
    a !in it.attrs || !it.attrs[a].Num?
  }

  /** `v` is what `item.get(a)` gives: the stored text, or None when `a` is absent or NULL. */
  predicate ReadsAs(it: Item, a: string, v: Option<string>) {
    if a in it.attrs && it.attrs[a].Str? then v == Some(it.attrs[a].s) else v == None
  }

  /** `v` is `item.get(a) or utcnow()`: the stored text unless absent, NULL or empty, then the clock. */
  predicate StampedAs(it: Item, a: string, now: Timestamp, v: Timestamp) {
    if a in it.attrs && it.attrs[a].Str? && it.attrs[a].s != "" then v == it.attrs[a].s else v == now
  }

  function ReadString(it: Item, a: string): Result<string, DecodeError> {
    if IsText(it, a) then Success(it.attrs[a].s) else Failure(BadAttribute(it.key, a))
  }

  function ReadAmount(it: Item, a: string): Result<int, DecodeError> {
    if IsAmount(it, a) then Success(it.attrs[a].n) else Failure(BadAttribute(it.key, a))
  }

  /** `item.get(a)`: absent or NULL reads as None. */
  function ReadOptional(it: Item, a: string): Result<Option<string>, DecodeError> {
    if a !in it.attrs then Success(None)
    else match it.attrs[a]
      case Str(s) => Success(Some(s))
      case Null => Success(None)
      case Num(_) => Failure(BadAttribute(it.key, a))
  }

  function ReadStamp(it: Item, a: string, now: Timestamp): Result<Timestamp, DecodeError> {
    var given :- ReadOptional(it, a);
    Success(Stamp(given, now))
  }

  // ----- Fund -----

  /** The items `DecodeFund` accepts. */
  predicate FundShape(it: Item) {
    && IsText(it, "fund_id") && IsText(it, "name") && IsText(it, "type")
    && IsAmount(it, "min_amount") && IsAmount(it, "max_amount") && IsText(it, "risk_level")
    && IsOptionalText(it, "description") && IsOptionalText(it, "created_at")
  }

  /** `Fund.to_dynamo_item`; decoding it back yields the same fund at any clock. */
  function EncodeFund(f: Fund): (it: Item)
    ensures it.key == FundKey(f.fundId)
    ensures forall now: Timestamp :: DecodeFund(it, now) == Success(f)
  {
    Item(FundKey(f.fundId), map[
      "fund_id" := Str(f.fundId),
      "name" := Str(f.name),
      "type" := Str(f.fundType),
      "min_amount" := Num(f.minAmount),
      "max_amount" := Num(f.maxAmount),
      "risk_level" := Str(f.riskLevel),
      "description" := Nullable(f.description),
      "created_at" := Str(f.createdAt)])
  }

  /** `Fund.from_dynamo_item`. */
  function DecodeFund(it: Item, now: Timestamp): (r: Result<Fund, DecodeError>)
    ensures r.Success? <==> FundShape(it)
    ensures r.Success? ==> it.attrs["min_amount"] == Num(r.value.minAmount)
    ensures r.Success? ==> it.attrs["fund_id"] == Str(r.value.fundId) && it.attrs["name"] == Str(r.value.name)
    ensures r.Success? ==> it.attrs["type"] == Str(r.value.fundType) && it.attrs["risk_level"] == Str(r.value.riskLevel)
    ensures r.Success? ==> it.attrs["max_amount"] == Num(r.value.maxAmount)
    ensures r.Success? ==> ReadsAs(it, "description", r.value.description)
    ensures r.Success? ==> StampedAs(it, "created_at", now, r.value.createdAt)
  {
    var fundId :- ReadString(it, "fund_id");
    var name :- ReadString(it, "name");
    var fundType :- ReadString(it, "type");
    var minAmount :- ReadAmount(it, "min_amount");
    var maxAmount :- ReadAmount(it, "max_amount");
    var riskLevel :- ReadString(it, "risk_level");
    var description :- ReadOptional(it, "description");
    var createdAt :- ReadStamp(it, "created_at", now);
    Success(Fund(fundId, name, fundType, minAmount, maxAmount, riskLevel, description, createdAt))
  }

  // ----- ClientBalance -----

  /** The items `DecodeBalance` accepts. */
  predicate BalanceShape(it: Item) {
    IsText(it, "client_id") && IsAmount(it, "balance") && IsOptionalText(it, "updated_at")
  }

  /** `ClientBalance.to_dynamo_item`; decoding it back yields the same balance. */
  function EncodeBalance(b: ClientBalance): (it: Item)
    ensures it.key == BalanceKey(b.clientId)
    ensures forall now: Timestamp :: DecodeBalance(it, now) == Success(b)
  {
    Item(BalanceKey(b.clientId), map[
      "client_id" := Str(b.clientId),
      "balance" := Num(b.balance),
      "updated_at" := Str(b.updatedAt)])
  }

  /** `ClientBalance.from_dynamo_item`. */
  function DecodeBalance(it: Item, now: Timestamp): (r: Result<ClientBalance, DecodeError>)
    ensures r.Success? <==> BalanceShape(it)
    ensures r.Success? ==> it.attrs["balance"] == Num(r.value.balance)
    ensures r.Success? ==> it.attrs["client_id"] == Str(r.value.clientId)
    ensures r.Success? ==> StampedAs(it, "updated_at", now, r.value.updatedAt)
  {
    var clientId :- ReadString(it, "client_id");
    var balance :- ReadAmount(it, "balance");
    var updatedAt :- ReadStamp(it, "updated_at", now);
    Success(ClientBalance(clientId, balance, updatedAt))
  }

  // ----- Transaction -----

  /** The items `DecodeTransaction` accepts. */
  predicate TransactionShape(it: Item) {
    && IsText(it, "transaction_id") && IsText(it, "client_id") && IsText(it, "fund_id")
    && IsAmount(it, "amount") && IsText(it, "transaction_type")
    && IsOptionalText(it, "status") && IsOptionalText(it, "created_at")
  }

  /** `Transaction.to_dynamo_item`; decoding it back yields the same transaction. */
  function EncodeTransaction(t: Transaction): (it: Item)
    ensures it.key == TransactionKey(t.clientId, t.transactionId)
    ensures forall now: Timestamp :: DecodeTransaction(it, now) == Success(t)
  {
    Item(TransactionKey(t.clientId, t.transactionId), map[
      "transaction_id" := Str(t.transactionId),
      "client_id" := Str(t.clientId),
      "fund_id" := Str(t.fundId),
      "amount" := Num(t.amount),
      "transaction_type" := Str(t.transactionType),
      "status" := Nullable(t.status),
      "created_at" := Str(t.createdAt)])
  }

  /** `Transaction.from_dynamo_item`; a missing status reads as "completed". */
  function DecodeTransaction(it: Item, now: Timestamp): (r: Result<Transaction, DecodeError>)
    ensures r.Success? <==> TransactionShape(it)
    ensures r.Success? ==> it.attrs["amount"] == Num(r.value.amount)
    ensures r.Success? ==> it.attrs["transaction_type"] == Str(r.value.transactionType)
    ensures r.Success? ==> it.attrs["transaction_id"] == Str(r.value.transactionId)
    ensures r.Success? ==> it.attrs["client_id"] == Str(r.value.clientId) && it.attrs["fund_id"] == Str(r.value.fundId)
    ensures r.Success? && "status" !in it.attrs ==> r.value.status == Some(CompletedStatus)
    ensures r.Success? && "status" in it.attrs ==> ReadsAs(it, "status", r.value.status)
    ensures r.Success? ==> StampedAs(it, "created_at", now, r.value.createdAt)
  {
    var transactionId :- ReadString(it, "transaction_id");
    var clientId :- ReadString(it, "client_id");
    var fundId :- ReadString(it, "fund_id");
    var amount :- ReadAmount(it, "amount");
    var transactionType :- ReadString(it, "transaction_type");
    var status :- if "status" in it.attrs then ReadOptional(it, "status") else Success(Some(CompletedStatus));
    var createdAt :- ReadStamp(it, "created_at", now);
    Success(Transaction(transactionId, clientId, fundId, amount, transactionType, status, createdAt))
  }

  // ----- ClientFundSubscription -----

  /** The items `DecodeSubscription` accepts: unlike the others, the date must be present. */
  predicate SubscriptionShape(it: Item) {
    && IsText(it, "client_id") && IsText(it, "fund_id") && IsAmount(it, "amount")
    && "subscription_date" in it.attrs && IsOptionalText(it, "subscription_date")
  }

  /** `ClientFundSubscription.to_dynamo_item`; decoding it back yields the same subscription. */
  function EncodeSubscription(s: Subscription): (it: Item)
    ensures it.key == SubscriptionKey(s.clientId, s.fundId)
    ensures forall now: Timestamp :: DecodeSubscription(it, now) == Success(s)
  {
    Item(SubscriptionKey(s.clientId, s.fundId), map[
      "client_id" := Str(s.clientId),
      "fund_id" := Str(s.fundId),
      "amount" := Num(s.amount),
      "subscription_date" := Str(s.subscriptionDate)])
  }

  /**
   * `ClientFundSubscription.from_dynamo_item`: the subscription date is required
   * (an absent one is a failure), though a NULL or empty one still falls back to
   * the clock.
   */
  function DecodeSubscription(it: Item, now: Timestamp): (r: Result<Subscription, DecodeError>)
    ensures r.Success? <==> SubscriptionShape(it)
    ensures r.Success? ==> it.attrs["amount"] == Num(r.value.amount)
    ensures r.Success? ==> it.attrs["client_id"] == Str(r.value.clientId) && it.attrs["fund_id"] == Str(r.value.fundId)
    ensures r.Success? && it.attrs["subscription_date"] in {Null, Str("")} ==> r.value.subscriptionDate == now
    ensures r.Success? && it.attrs["subscription_date"] !in {Null, Str("")} ==>
      it.attrs["subscription_date"] == Str(r.value.subscriptionDate)
  {
    var clientId :- ReadString(it, "client_id");
    var fundId :- ReadString(it, "fund_id");
    var amount :- ReadAmount(it, "amount");
    var date :- if "subscription_date" in it.attrs then ReadStamp(it, "subscription_date", now)
                else Failure(BadAttribute(it.key, "subscription_date"));
    Success(Subscription(clientId, fundId, amount, date))
  }

  // ----- Client -----

  /** The items `DecodeClient` accepts. */
  predicate ClientShape(it: Item) {
    && IsText(it, "client_id") && IsText(it, "nombre") && IsText(it, "apellidos") && IsText(it, "ciudad")
    && IsOptionalText(it, "email") && IsOptionalText(it, "phone") && IsOptionalText(it, "created_at")
  }

  /** `Client.to_dynamo_item`; decoding it back yields the same client. */
  function EncodeClient(c: Client): (it: Item)
    ensures it.key == ClientKey(c.clientId)
    ensures forall now: Timestamp :: DecodeClient(it, now) == Success(c)
  {
    Item(ClientKey(c.clientId), map[
      "client_id" := Str(c.clientId),
      "nombre" := Str(c.name),
      "apellidos" := Str(c.surname),
      "ciudad" := Str(c.city),
      "email" := Nullable(c.email),
      "phone" := Nullable(c.phone),
      "created_at" := Str(c.createdAt)])
  }

  /** `Client.from_dynamo_item`; a missing email or phone reads as None. */
  function DecodeClient(it: Item, now: Timestamp): (r: Result<Client, DecodeError>)
    ensures r.Success? <==> ClientShape(it)
    ensures r.Success? ==> it.attrs["client_id"] == Str(r.value.clientId) && it.attrs["nombre"] == Str(r.value.name)
    ensures r.Success? ==> it.attrs["apellidos"] == Str(r.value.surname) && it.attrs["ciudad"] == Str(r.value.city)
    ensures r.Success? ==> ReadsAs(it, "email", r.value.email) && ReadsAs(it, "phone", r.value.phone)
    ensures r.Success? ==> StampedAs(it, "created_at", now, r.value.createdAt)
  {
    var clientId :- ReadString(it, "client_id");
    var name :- ReadString(it, "nombre");
    var surname :- ReadString(it, "apellidos");
    var city :- ReadString(it, "ciudad");
    var email :- ReadOptional(it, "email");
    var phone :- ReadOptional(it, "phone");
    var createdAt :- ReadStamp(it, "created_at", now);
    Success(Client(clientId, name, surname, city, email, phone, createdAt))
  }
}
