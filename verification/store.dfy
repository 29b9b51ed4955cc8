/**
 * The single key-value table every entity lives in. An item is an open map of
 * attribute names to scalar values, stored under a two-part key (partition key,
 * sort key). The table is a finite map from keys to the attributes stored
 * there; connection setup, transport errors and the wire protocol are not
 * modelled.
 */
module Store {
  import opened Wrappers

  /** A scalar attribute value: a string, a fixed-point amount in cents, or NULL. */
  datatype Value = Str(s: string) | Num(n: int) | Null

  /** (partition key, sort key) */
  type Key = (string, string)

  /** The attributes of an item other than its key. */
  type Attrs = map<string, Value>

  /** An item: its key (the `pk` and `sk` attributes) and every other attribute. */
  datatype Item = Item(key: Key, attrs: Attrs)

  /** The table: the attributes filed under each key. */
  type Table = map<Key, Attrs>

  /** The item stored under `k`. */
  function ItemAt(t: Table, k: Key): Item
    requires k in t
  {
    Item(k, t[k])
  }

  /** Every key of `t` outside `changed` is still in `t'`, holding the same attributes. */
  ghost predicate OnlyKeysChanged(t: Table, t': Table, changed: set<Key>) {
    forall k :: k in t && k !in changed ==> k in t' && t'[k] == t[k]
  }

  /** Upsert by key: the item replaces whatever was stored under its key. */
  function Put(t: Table, it: Item): (t': Table)
    ensures it.key in t' && ItemAt(t', it.key) == it
    ensures forall k :: k != it.key ==> (k in t' <==> k in t)
    ensures forall k :: k != it.key && k in t ==> t'[k] == t[k]
  {
    t[it.key := it.attrs]
  }

  /** Point lookup; an absent key is not an error. */
  function Get(t: Table, k: Key): (r: Option<Item>)
    ensures r.Some? <==> k in t
    ensures r.Some? ==> r.value == ItemAt(t, k)
  {
    if k in t then Some(ItemAt(t, k)) else None
  }

  /** Removes the item under `k`; deleting an absent key is not an error. */
  function Delete(t: Table, k: Key): (t': Table)
    ensures k !in t'
    ensures forall k' :: k' != k ==> (k' in t' <==> k' in t)
    ensures forall k' :: k' != k && k' in t ==> t'[k'] == t[k']
  {
    t - {k}
  }

  /**
   * Every item of partition `pk` whose sort key begins with `skPrefix`
   * (an empty prefix selects the whole partition). Order is not significant.
   */
  function Query(t: Table, pk: string, skPrefix: string): (r: set<Item>)
    ensures forall it :: it in r <==> it.key in t && ItemAt(t, it.key) == it && it.key.0 == pk && skPrefix <= it.key.1
  {
    set k | k in t && k.0 == pk && skPrefix <= k.1 :: ItemAt(t, k)
  }

  /** Every item of the table. */
  function Scan(t: Table): (r: set<Item>)
    ensures forall it :: it in r <==> it.key in t && ItemAt(t, it.key) == it
  {
    set k | k in t :: ItemAt(t, k)
  }
}
