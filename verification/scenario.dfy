/**
 * A worked run of the services from an empty table: seed the catalog, open a
 * client, subscribe it to fund "4". It pins the constants together: the opening
 * grant of 500,000 covers fund 4's minimum of 250,000, and half is left.
 */
module Scenario {
  import opened Wrappers
  import opened Store
  import opened Keys
  import opened Codec
  import opened Repository
  import opened Services

  /**
   * On a freshly seeded table a new client is created, subscribes to fund "4"
   * for its minimum of 250,000, and is left with a balance of 250,000.
   */
  lemma SeedCreateSubscribe(c: string, name: string, surname: string, city: string,
                            email: Option<string>, phone: Option<string>, tx1: string, tx2: string, now: Timestamp)
    ensures var t1 := InitializeDefaultFunds(map[], now).after;
      var s2 := CreateClient(t1, c, name, surname, city, email, phone, tx1, now);
      var s3 := Subscribe(s2.after, c, "4", tx2, now);
      && s2.result.Success?
      && s3.result.Success?
      && s3.result.value.subscription.amount == 250_000 * Cents
      && BalanceGetByClientId(s3.after, c, now) == Success(Some(ClientBalance(c, 250_000 * Cents, now)))
  {
    var t1 := InitializeDefaultFunds(map[], now).after;
    var t2 := CreateClient(t1, c, name, surname, city, email, phone, tx1, now).after;
    SeededThenCreated(c, name, surname, city, email, phone, tx1, now);
    SubscribeSucceedsWhen(t2, c, "4", tx2, now);
    SubscribeCharges(t2, c, "4", tx2, now);
  }

  /**
   * Seeding an empty table stores nothing in any client's partition, and fund
   * "4" then reads back with its minimum of 250,000.
   */
  lemma SeededCatalog(c: string, now: Timestamp)
    ensures var t1 := InitializeDefaultFunds(map[], now).after;
      && (forall k :: k in t1 ==> k.0 != ClientPartition(c))
      && FundKey("4") in t1 && FundGetById(t1, "4", now).Success? && FundGetById(t1, "4", now).value.Some?
      && FundGetById(t1, "4", now).value.value.minAmount == 250_000 * Cents
  {
    var fs := DefaultFunds(now);
    var t1 := InitializeDefaultFunds(map[], now).after;
    CatalogIds(now);
    DefaultCatalog(now);
    forall k | k in t1
      ensures k.0 != ClientPartition(c)
    {
      var g :| g in fs && k == FundKey(g.fundId);
      FundKeyOutsideClients(g.fundId, c);
    }
    SeededFund(map[], now, 3);
    assert FundGetById(t1, "4", now) == Success(Some(fs[3]));
  }

  /**
   * After seeding an empty table and creating a client, the client reads back,
   * fund "4" reads back with its minimum of 250,000, the client holds no
   * subscription to it, and the balance is the opening grant.
   */
  lemma SeededThenCreated(c: string, name: string, surname: string, city: string,
                          email: Option<string>, phone: Option<string>, tx1: string, now: Timestamp)
    ensures var t1 := InitializeDefaultFunds(map[], now).after;
      var s2 := CreateClient(t1, c, name, surname, city, email, phone, tx1, now);
      var t2 := s2.after;
      && s2.result.Success?
      && ClientKey(c) in t2 && ClientGetById(t2, c, now).Success?
      && FundKey("4") in t2 && FundGetById(t2, "4", now).Success? && FundGetById(t2, "4", now).value.Some?
      && FundGetById(t2, "4", now).value.value.minAmount == 250_000 * Cents
      && BalanceGetByClientId(t2, c, now).Success?
      && SubscriptionKey(c, "4") !in t2
      && PriorBalance(t2, c, now) == InitialGrant
  {
    hide DefaultFunds, SaveFunds, InitializeDefaultFunds, CreateClient, Subscribe;
    hide ClientGetById, BalanceGetByClientId, SubscriptionGetByClientAndFund;
    var t1 := InitializeDefaultFunds(map[], now).after;
    SeededCatalog(c, now);
    CreateClientWrites(t1, c, name, surname, city, email, phone, tx1, now);
    var t2 := CreateClient(t1, c, name, surname, city, email, phone, tx1, now).after;
    // Fund "4" is untouched by the creation.
    FundKeyOutsideClients("4", c);
    PartitionKeysDistinct(c, tx1, "4");
    assert ItemAt(t2, FundKey("4")) == ItemAt(t1, FundKey("4"));
  }
}
