/**
 * The tariff-subscription registry: every subscription is filed twice, once
 * under its tariff and once under its customer, and the two indexes are kept
 * in step. The registry is generic in the customer type C; the customer layer
 * instantiates it with its own customer class. Customers and tariffs are
 * matched by identity (reference equality), as the registry's hash maps do.
 */
module SubscriptionRepo {
  import opened Options
  import opened Lists
  import opened Tariffs

  /**
   * The join of one customer and one tariff, with the number of the
   * customer's population committed to the tariff.
   */
  class TariffSubscription<C> {
    const customer: C
    const tariff: Tariff
    var customersCommitted: int

    /** A new subscription commits nobody. */
    constructor (customer: C, tariff: Tariff)
      ensures this.customer == customer && this.tariff == tariff
      ensures customersCommitted == 0
    {
      this.customer := customer;
      this.tariff := tariff;
      customersCommitted := 0;
    }

    /** Withdraws count members of the population from this subscription. */
    method Unsubscribe(count: int)
      modifies this
      ensures customersCommitted == old(customersCommitted) - count
    {
      customersCommitted := customersCommitted - count;
    }
  }

  // ---------------------------------------------------------------------------
  // The registry's two hash maps as values, and what each operation does to them
  // ---------------------------------------------------------------------------

  /** The two indexes: tariff to its subscriptions, customer to its subscriptions. */
  datatype Index<C(==)> = Index(
    byTariff: map<Tariff, seq<TariffSubscription<C>>>,
    byCustomer: map<C, seq<TariffSubscription<C>>>)

  /** The state of a freshly constructed or recycled registry. */
  function EmptyIndex<C(==)>(): Index<C>
  {
    Index(map[], map[])
  }

  /** HashMap.get with a missing key read as an empty list. */
  function Lookup<K, S>(m: map<K, seq<S>>, k: K): seq<S>
  {
    if k in m then m[k] else []
  }

  /** How often s is filed under key k. */
  function Occurrences<K, S(==)>(m: map<K, seq<S>>, k: K, s: S): nat
  {
    multiset(Lookup(m, k))[s]
  }

  /**
   * The dual-index invariant: a list filed under tariff t holds only
   * subscriptions to t, a list filed under customer c holds only subscriptions
   * of c, and every subscription is filed as often in one index as in the
   * other. Because a subscription can only sit under its own keys, the last
   * conjunct says that the two indexes hold the same multiset of subscriptions.
   */
  ghost predicate Consistent<C>(ix: Index<C>)
  {
    FiledByTariff(ix) && FiledByCustomer(ix)
  }

  /** Every subscription under tariff t is to t and is filed as often under its customer. */
  ghost predicate FiledByTariff<C>(ix: Index<C>)
  {
    forall t, s :: t in ix.byTariff && s in ix.byTariff[t] ==>
      s.tariff == t && Occurrences(ix.byTariff, t, s) == Occurrences(ix.byCustomer, s.customer, s)
  }

  /** Every subscription under customer c is of c and is filed as often under its tariff. */
  ghost predicate FiledByCustomer<C>(ix: Index<C>)
  {
    forall c, s :: c in ix.byCustomer && s in ix.byCustomer[c] ==>
      s.customer == c && Occurrences(ix.byCustomer, c, s) == Occurrences(ix.byTariff, s.tariff, s)
  }

  /** Under the invariant, any subscription is filed as often under its tariff as under its customer. */
  lemma Balanced<C>(ix: Index<C>, s: TariffSubscription<C>)
    requires Consistent(ix)
    ensures Occurrences(ix.byTariff, s.tariff, s) == Occurrences(ix.byCustomer, s.customer, s)
  {
  }

  /** Both of s's keys are present, so that removing s dereferences no missing list. */
  predicate HasKeys<C(==)>(ix: Index<C>, s: TariffSubscription<C>)
  {
    s.tariff in ix.byTariff && s.customer in ix.byCustomer
  }

  /** Appends s to the list under k, creating that list first when k is new. */
  function Put<K, S>(m: map<K, seq<S>>, k: K, s: S): map<K, seq<S>>
  {
    m[k := Lookup(m, k) + [s]]
  }

  /** storeSubscription: appends s under its tariff and under its customer. */
  function Store<C(==)>(ix: Index<C>, s: TariffSubscription<C>): (r: Index<C>)
    ensures HasKeys(r, s)
  {
    Index(Put(ix.byTariff, s.tariff, s), Put(ix.byCustomer, s.customer, s))
  }

  /** remove: drops the first occurrence of s from its tariff's list and from its customer's list. */
  function Delete<C(==)>(ix: Index<C>, s: TariffSubscription<C>): (r: Index<C>)
    requires HasKeys(ix, s)
    ensures r.byTariff.Keys == ix.byTariff.Keys && r.byCustomer.Keys == ix.byCustomer.Keys
  {
    Index(ix.byTariff[s.tariff := RemoveFirst(ix.byTariff[s.tariff], s)],
          ix.byCustomer[s.customer := RemoveFirst(ix.byCustomer[s.customer], s)])
  }

  /** The index with (possibly empty) lists present under tariff t and customer c. */
  function WithKeys<C(==)>(ix: Index<C>, t: Tariff, c: C): Index<C>
  {
    Index(ix.byTariff[t := Lookup(ix.byTariff, t)], ix.byCustomer[c := Lookup(ix.byCustomer, c)])
  }

  /** Stores each subscription of subs in turn. */
  function StoreAll<C(==)>(ix: Index<C>, subs: seq<TariffSubscription<C>>): (r: Index<C>)
    ensures ix.byTariff.Keys <= r.byTariff.Keys && ix.byCustomer.Keys <= r.byCustomer.Keys
  {
    if subs == [] then ix else Store(StoreAll(ix, subs[..|subs| - 1]), subs[|subs| - 1])
  }

  /**
   * Removes each subscription of revoked in turn and stores its replacement;
   * the keys of every revoked subscription must be present to begin with.
   */
  function ReplaceAll<C(==)>(ix: Index<C>, revoked: seq<TariffSubscription<C>>,
                             replacement: TariffSubscription<C> -> TariffSubscription<C>): (r: Index<C>)
    requires forall s :: s in revoked ==> HasKeys(ix, s)
    ensures ix.byTariff.Keys <= r.byTariff.Keys && ix.byCustomer.Keys <= r.byCustomer.Keys
  {
    if revoked == [] then ix
    else
      var init := revoked[..|revoked| - 1];
      var last := revoked[|revoked| - 1];
      assert forall s :: s in init ==> s in revoked;
      var prev := ReplaceAll(ix, init, replacement);
      assert last in revoked;
      assert HasKeys(ix, last);
      Store(Delete(prev, last), replacement(last))
  }

  /** One more step of the replacement fold: the next revoked subscription is removed and its replacement stored. */
  lemma ReplaceAllStep<C>(ix: Index<C>, revoked: seq<TariffSubscription<C>>,
                          replacement: TariffSubscription<C> -> TariffSubscription<C>, i: nat)
    requires forall s :: s in revoked ==> HasKeys(ix, s)
    requires i < |revoked|
    ensures forall s :: s in revoked[..i] ==> HasKeys(ix, s)
    ensures HasKeys(ReplaceAll(ix, revoked[..i], replacement), revoked[i])
    ensures ReplaceAll(ix, revoked[..i + 1], replacement)
            == Store(Delete(ReplaceAll(ix, revoked[..i], replacement), revoked[i]), replacement(revoked[i]))
  {
    assert revoked[..i + 1][..i] == revoked[..i];
    assert revoked[i] in revoked;
  }

  /**
   * findSubscriptionForCustomer: the first subscription of the list whose
   * customer is the given one, or None when no subscription of the list is.
   */
  function FirstOfCustomer<C(==)>(subs: seq<TariffSubscription<C>>, customer: C): (r: Option<TariffSubscription<C>>)
    ensures r.None? <==> forall s :: s in subs ==> s.customer != customer
    ensures r.Some? ==> exists i :: 0 <= i < |subs| && subs[i] == r.value && r.value.customer == customer
                                    && forall j :: 0 <= j < i ==> subs[j].customer != customer
  {
    if subs == [] then None
    else if subs[0].customer == customer then Some(subs[0])
    else
      var r := FirstOfCustomer(subs[1..], customer);
      assert forall j :: 1 <= j < |subs| ==> subs[j] == subs[1..][j - 1];
      r
  }

  /** At most one subscription per (customer, tariff) pair is filed under each tariff. */
  ghost predicate UniquePairs<C>(ix: Index<C>)
  {
    forall t, i, j :: t in ix.byTariff && 0 <= i < j < |ix.byTariff[t]| ==>
      ix.byTariff[t][i].customer != ix.byTariff[t][j].customer
  }

  // ---------------------------------------------------------------------------
  // Properties of the operations
  // ---------------------------------------------------------------------------

  /** The empty registry satisfies the invariant. */
  lemma EmptyConsistent<C>()
    ensures Consistent(EmptyIndex<C>()) && UniquePairs(EmptyIndex<C>())
  {
  }

  /** Appending s under k files s once more under k and changes no other count. */
  lemma OccurrencesPut<K, S>(m: map<K, seq<S>>, k: K, s: S, k': K, x: S)
    ensures Occurrences(Put(m, k, s), k', x) == Occurrences(m, k', x) + (if k == k' && x == s then 1 else 0)
  {
  }

  /** Removing the first s under k files s once less under k (if at all) and changes no other count. */
  lemma OccurrencesRemove<K, S>(m: map<K, seq<S>>, k: K, s: S, k': K, x: S)
    requires k in m
    ensures Occurrences(m[k := RemoveFirst(m[k], s)], k', x)
            == if k == k' && x == s && x in m[k] then Occurrences(m, k', x) - 1 else Occurrences(m, k', x)
  {
  }

  /** Storing a subscription under its own keys keeps the invariant. */
  lemma StoreConsistent<C>(ix: Index<C>, s: TariffSubscription<C>)
    requires Consistent(ix)
    ensures Consistent(Store(ix, s))
  {
    var r := Store(ix, s);
    forall t, x | t in r.byTariff && x in r.byTariff[t]
      ensures x.tariff == t && Occurrences(r.byTariff, t, x) == Occurrences(r.byCustomer, x.customer, x)
    {
      StoreBalancedAt(ix, s, t, x.customer, x);
    }
    forall c, x | c in r.byCustomer && x in r.byCustomer[c]
      ensures x.customer == c && Occurrences(r.byCustomer, c, x) == Occurrences(r.byTariff, x.tariff, x)
    {
      StoreBalancedAt(ix, s, x.tariff, c, x);
    }
  }

  /** After storing s, an entry found under either of its keys is filed as often in both indexes. */
  lemma StoreBalancedAt<C>(ix: Index<C>, s: TariffSubscription<C>, t: Tariff, c: C, x: TariffSubscription<C>)
    requires Consistent(ix)
    requires (x in Lookup(Store(ix, s).byTariff, t) && c == x.customer)
          || (x in Lookup(Store(ix, s).byCustomer, c) && t == x.tariff)
    ensures x.tariff == t && x.customer == c
    ensures Occurrences(Store(ix, s).byTariff, t, x) == Occurrences(Store(ix, s).byCustomer, c, x)
  {
    PutWasFiled(ix.byTariff, s.tariff, s, t, x);
    PutWasFiled(ix.byCustomer, s.customer, s, c, x);
    OccurrencesPut(ix.byTariff, s.tariff, s, t, x);
    OccurrencesPut(ix.byCustomer, s.customer, s, c, x);
    Balanced(ix, x);
  }

  /** An entry of a list after an append is the appended one or was there before. */
  lemma PutWasFiled<K, S>(m: map<K, seq<S>>, k: K, s: S, k': K, x: S)
    ensures x in Lookup(Put(m, k, s), k') <==> (k == k' && x == s) || x in Lookup(m, k')
  {
  }

  /** Removing a subscription keeps the invariant, whether or not it was filed. */
  lemma DeleteConsistent<C>(ix: Index<C>, s: TariffSubscription<C>)
    requires Consistent(ix) && HasKeys(ix, s)
    ensures Consistent(Delete(ix, s))
  {
    DeleteFiledByTariff(ix, s);
    DeleteFiledByCustomer(ix, s);
  }

  lemma DeleteFiledByTariff<C>(ix: Index<C>, s: TariffSubscription<C>)
    requires Consistent(ix) && HasKeys(ix, s)
    ensures FiledByTariff(Delete(ix, s))
  {
    var r := Delete(ix, s);
    forall t, x | t in r.byTariff && x in r.byTariff[t]
      ensures x.tariff == t && Occurrences(r.byTariff, t, x) == Occurrences(r.byCustomer, x.customer, x)
    {
      DeleteBalancedAt(ix, s, t, x);
    }
  }

  lemma DeleteFiledByCustomer<C>(ix: Index<C>, s: TariffSubscription<C>)
    requires Consistent(ix) && HasKeys(ix, s)
    ensures FiledByCustomer(Delete(ix, s))
  {
    var r := Delete(ix, s);
    forall c, x | c in r.byCustomer && x in r.byCustomer[c]
      ensures x.customer == c && Occurrences(r.byCustomer, c, x) == Occurrences(r.byTariff, x.tariff, x)
    {
      RemovedWasFiled(ix.byCustomer, s.customer, s, c, x);
      assert x.customer == c && x in Lookup(ix.byCustomer, x.customer);
      DeleteBalancedAt(ix, s, x.tariff, x);
    }
  }

  /** What the invariant says of one subscription x filed under t, after s is removed. */
  lemma DeleteBalancedAt<C>(ix: Index<C>, s: TariffSubscription<C>, t: Tariff, x: TariffSubscription<C>)
    requires Consistent(ix) && HasKeys(ix, s)
    requires x in Lookup(Delete(ix, s).byTariff, t) || (x in Lookup(ix.byCustomer, x.customer) && t == x.tariff)
    ensures x.tariff == t
    ensures Occurrences(Delete(ix, s).byTariff, t, x) == Occurrences(Delete(ix, s).byCustomer, x.customer, x)
  {
    if x in Lookup(Delete(ix, s).byTariff, t) {
      RemovedWasFiled(ix.byTariff, s.tariff, s, t, x);
    }
    Balanced(ix, x);
    OccurrencesRemove(ix.byTariff, s.tariff, s, t, x);
    OccurrencesRemove(ix.byCustomer, s.customer, s, x.customer, x);
    if x == s {
      Balanced(ix, s);
    }
  }

  /** What is filed after a removal was filed before it. */
  lemma RemovedWasFiled<K, S>(m: map<K, seq<S>>, k: K, s: S, k': K, x: S)
    requires k in m && x in Lookup(m[k := RemoveFirst(m[k], s)], k')
    ensures x in Lookup(m, k')
  {
    if k == k' {
      assert x in multiset(RemoveFirst(m[k], s));
    }
  }

  /** Storing a sequence of subscriptions keeps the invariant. */
  lemma {:induction false} StoreAllConsistent<C>(ix: Index<C>, subs: seq<TariffSubscription<C>>)
    requires Consistent(ix)
    ensures Consistent(StoreAll(ix, subs))
  {
    if subs != [] {
      StoreAllConsistent(ix, subs[..|subs| - 1]);
      StoreConsistent(StoreAll(ix, subs[..|subs| - 1]), subs[|subs| - 1]);
    }
  }

  /** A subscription filed under a tariff is filed under its customer too, so both its keys are present. */
  lemma FiledHasKeys<C>(ix: Index<C>, t: Tariff, s: TariffSubscription<C>)
    requires Consistent(ix) && s in Lookup(ix.byTariff, t)
    ensures s.tariff == t && HasKeys(ix, s)
    ensures s in Lookup(ix.byCustomer, s.customer)
  {
    Balanced(ix, s);
  }

  /**
   * The lookup of getSubscription finds what it created: once a subscription
   * for (customer, tariff) has been stored, the scan of the tariff's list
   * returns it, so a second getSubscription for the pair creates nothing.
   */
  lemma {:induction false} FindAfterStore<C>(ix: Index<C>, g: TariffSubscription<C>)
    requires FirstOfCustomer(Lookup(ix.byTariff, g.tariff), g.customer).None?
    ensures FirstOfCustomer(Lookup(Store(ix, g).byTariff, g.tariff), g.customer) == Some(g)
  {
    FirstOfCustomerAppend(Lookup(ix.byTariff, g.tariff), g);
  }

  lemma {:induction false} FirstOfCustomerAppend<C>(subs: seq<TariffSubscription<C>>, g: TariffSubscription<C>)
    requires FirstOfCustomer(subs, g.customer).None?
    ensures FirstOfCustomer(subs + [g], g.customer) == Some(g)
  {
    if subs != [] {
      assert (subs + [g])[1..] == subs[1..] + [g];
      FirstOfCustomerAppend(subs[1..], g);
    }
  }

  /**
   * A subscription created for a pair the registry did not hold is filed
   * exactly once under its tariff and exactly once under its customer.
   */
  lemma CreatedOnce<C>(ix: Index<C>, g: TariffSubscription<C>)
    requires Consistent(ix)
    requires FirstOfCustomer(Lookup(ix.byTariff, g.tariff), g.customer).None?
    ensures Occurrences(Store(ix, g).byTariff, g.tariff, g) == 1
    ensures Occurrences(Store(ix, g).byCustomer, g.customer, g) == 1
  {
    assert g !in Lookup(ix.byTariff, g.tariff);
    Balanced(ix, g);
  }

  /**
   * remove takes away exactly one filing of s from each index, or none when
   * s is not filed, so a subscription filed once is gone afterwards and a
   * second remove changes nothing.
   */
  lemma DeleteOnce<C>(ix: Index<C>, s: TariffSubscription<C>)
    requires HasKeys(ix, s)
    ensures Occurrences(Delete(ix, s).byTariff, s.tariff, s)
            == if s in ix.byTariff[s.tariff] then Occurrences(ix.byTariff, s.tariff, s) - 1 else 0
    ensures Occurrences(Delete(ix, s).byCustomer, s.customer, s)
            == if s in ix.byCustomer[s.customer] then Occurrences(ix.byCustomer, s.customer, s) - 1 else 0
  {
    OccurrencesRemove(ix.byTariff, s.tariff, s, s.tariff, s);
    OccurrencesRemove(ix.byCustomer, s.customer, s, s.customer, s);
  }

  /**
   * remove changes no list but the two filed under s's own keys, leaves a
   * list that does not hold s as it was, and cuts exactly the first
   * occurrence of s out of a list that does.
   */
  lemma DeleteFrame<C>(ix: Index<C>, s: TariffSubscription<C>, t: Tariff, c: C)
    requires HasKeys(ix, s)
    ensures t != s.tariff || s !in Lookup(ix.byTariff, t) ==>
              Lookup(Delete(ix, s).byTariff, t) == Lookup(ix.byTariff, t)
    ensures c != s.customer || s !in Lookup(ix.byCustomer, c) ==>
              Lookup(Delete(ix, s).byCustomer, c) == Lookup(ix.byCustomer, c)
    ensures var l := Lookup(ix.byTariff, t);
            t == s.tariff && s in l ==> Lookup(Delete(ix, s).byTariff, t) == l[..IndexOf(l, s)] + l[IndexOf(l, s) + 1..]
    ensures var l := Lookup(ix.byCustomer, c);
            c == s.customer && s in l ==> Lookup(Delete(ix, s).byCustomer, c) == l[..IndexOf(l, s)] + l[IndexOf(l, s) + 1..]
  {
    RemoveFrame(ix.byTariff, s.tariff, s, t);
    RemoveFrame(ix.byCustomer, s.customer, s, c);
  }

  lemma RemoveFrame<K, S>(m: map<K, seq<S>>, k: K, s: S, k': K)
    requires k in m
    ensures var l := Lookup(m, k');
            Lookup(m[k := RemoveFirst(m[k], s)], k')
            == if k' == k && s in l then l[..IndexOf(l, s)] + l[IndexOf(l, s) + 1..] else l
  {
    if k' == k && s in m[k] {
      RemoveFirstAt(m[k], s);
    }
  }

  /**
   * While pairs are unique, removing the subscription a customer holds on a
   * tariff leaves the customer holding nothing on that tariff.
   */
  lemma RemoveHeld<C>(ix: Index<C>, t: Tariff, c: C, s: TariffSubscription<C>)
    requires Consistent(ix) && UniquePairs(ix)
    requires FirstOfCustomer(Lookup(ix.byTariff, t), c) == Some(s)
    ensures HasKeys(ix, s)
    ensures FirstOfCustomer(Lookup(Delete(ix, s).byTariff, t), c).None?
  {
    var l := Lookup(ix.byTariff, t);
    FiledHasKeys(ix, t, s);
    assert Lookup(Delete(ix, s).byTariff, t) == RemoveFirst(l, s);
    RemoveFirstOfCustomer(l, c, s);
  }

  /** In a list where no two subscriptions share a customer, removing the customer's one leaves none of it. */
  lemma RemoveFirstOfCustomer<C>(l: seq<TariffSubscription<C>>, c: C, s: TariffSubscription<C>)
    requires forall i, j :: 0 <= i < j < |l| ==> l[i].customer != l[j].customer
    requires FirstOfCustomer(l, c) == Some(s)
    ensures FirstOfCustomer(RemoveFirst(l, s), c).None?
  {
    var k :| 0 <= k < |l| && l[k] == s && s.customer == c && forall j :: 0 <= j < k ==> l[j].customer != c;
    assert s !in l[..k] by {
      forall j | 0 <= j < k ensures l[..k][j] != s {
        assert l[j].customer != c;
      }
    }
    RemoveFirstAtIndex(l, k);
    OthersOfOtherCustomers(l, k);
  }

  /** In a list without shared customers, the entries other than the one at k are not of its customer. */
  lemma OthersOfOtherCustomers<C>(l: seq<TariffSubscription<C>>, k: int)
    requires forall i, j :: 0 <= i < j < |l| ==> l[i].customer != l[j].customer
    requires 0 <= k < |l|
    ensures forall x :: x in l[..k] + l[k + 1..] ==> x.customer != l[k].customer
  {
    var rest := l[..k] + l[k + 1..];
    forall j | 0 <= j < |rest| ensures rest[j].customer != l[k].customer {
      if j < k {
        assert rest[j] == l[j];
      } else {
        assert rest[j] == l[j + 1];
      }
    }
  }

  /** Creating a subscription and removing it again leaves only the (possibly new, empty) lists behind. */
  lemma DeleteAfterStore<C>(ix: Index<C>, g: TariffSubscription<C>)
    requires g !in Lookup(ix.byTariff, g.tariff) && g !in Lookup(ix.byCustomer, g.customer)
    ensures Delete(Store(ix, g), g) == WithKeys(ix, g.tariff, g.customer)
  {
    PutThenRemove(ix.byTariff, g.tariff, g);
    PutThenRemove(ix.byCustomer, g.customer, g);
  }

  lemma PutThenRemove<K, S>(m: map<K, seq<S>>, k: K, s: S)
    requires s !in Lookup(m, k)
    ensures Put(m, k, s)[k := RemoveFirst(Put(m, k, s)[k], s)] == m[k := Lookup(m, k)]
  {
    RemoveAppended(Lookup(m, k), s);
  }

  /** getSubscription keeps pairs unique: it stores only when the pair is not yet held. */
  lemma StoreUnique<C>(ix: Index<C>, g: TariffSubscription<C>)
    requires UniquePairs(ix)
    requires FirstOfCustomer(Lookup(ix.byTariff, g.tariff), g.customer).None?
    ensures UniquePairs(Store(ix, g))
  {
    var r := Store(ix, g);
    var l := Lookup(ix.byTariff, g.tariff);
    forall t, i, j | t in r.byTariff && 0 <= i < j < |r.byTariff[t]|
      ensures r.byTariff[t][i].customer != r.byTariff[t][j].customer
    {
      if t == g.tariff && j == |l| {
        assert r.byTariff[t][i] in l;
      }
    }
  }

  /**
   * add does not look for an existing entry: adding a subscription that is
   * already filed files it a second time, and the pair is then held twice.
   */
  lemma AddDuplicates<C>(ix: Index<C>, s: TariffSubscription<C>)
    requires s in Lookup(ix.byTariff, s.tariff)
    ensures !UniquePairs(Store(ix, s))
  {
    var l := Lookup(ix.byTariff, s.tariff);
    var i :| 0 <= i < |l| && l[i] == s;
    assert Store(ix, s).byTariff[s.tariff][i] == s;
    assert Store(ix, s).byTariff[s.tariff][|l|] == s;
  }

  /**
   * When a customer's only subscription is s, removing s and storing the
   * subscription r it moves to leaves r as the customer's only subscription,
   * and no subscription of the customer is left under s's tariff unless r is
   * to that same tariff.
   */
  lemma {:induction false} SwitchSoleSubscription<C>(ix: Index<C>, s: TariffSubscription<C>, r: TariffSubscription<C>)
    requires Consistent(ix)
    requires Lookup(ix.byCustomer, s.customer) == [s] && s.tariff in ix.byTariff
    requires r.customer == s.customer
    ensures Lookup(Store(Delete(ix, s), r).byCustomer, s.customer) == [r]
    ensures FirstOfCustomer(Lookup(Store(Delete(ix, s), r).byTariff, s.tariff), s.customer)
            == if r.tariff == s.tariff then Some(r) else None
  {
    var c := s.customer;
    var l := ix.byTariff[s.tariff];
    var d := Delete(ix, s);
    assert RemoveFirst([s], s) == [];
    // Every subscription of c filed under s's tariff is s itself, filed once.
    forall x | x in l && x.customer == c ensures x == s {
      Balanced(ix, x);
    }
    assert Occurrences(ix.byTariff, s.tariff, s) == 1 by {
      Balanced(ix, s);
    }
    var rest := d.byTariff[s.tariff];
    assert multiset(rest) == multiset(l) - multiset{s};
    assert s !in rest by {
      assert multiset(rest)[s] == 0;
    }
    forall x | x in rest ensures x.customer != c {
      assert x in multiset(rest);
      assert x in multiset(l);
    }
    assert FirstOfCustomer(rest, c).None?;
    if r.tariff == s.tariff {
      FirstOfCustomerAppend(rest, r);
    } else {
      assert Lookup(Store(d, r).byTariff, s.tariff) == rest;
    }
  }

  // ---------------------------------------------------------------------------
  // The registry object
  // ---------------------------------------------------------------------------

  /** TariffSubscriptionRepo: the two hash maps, updated in place. */
  class TariffSubscriptionRepo<C(==)> {
    var tariffMap: map<Tariff, seq<TariffSubscription<C>>>
    var customerMap: map<C, seq<TariffSubscription<C>>>

    /** The registry's state as a value. */
    function Contents(): Index<C>
      reads this
    {
      Index(tariffMap, customerMap)
    }

    /** The object invariant: the two maps are in step. */
    ghost predicate Valid()
      reads this
    {
      Consistent(Contents())
    }

    constructor ()
      ensures Valid() && Contents() == EmptyIndex()
    {
      tariffMap := map[];
      customerMap := map[];
    }

    /**
     * The subscription for (customer, tariff): the one already filed under the
     * tariff for this customer, or else a new one with no commitment, which is
     * filed under both keys.
     */
    method GetSubscription(customer: C, tariff: Tariff) returns (result: TariffSubscription<C>)
      requires Valid()
      modifies this
      ensures Valid()
      ensures result.customer == customer && result.tariff == tariff
      ensures match FirstOfCustomer(Lookup(old(tariffMap), tariff), customer)
                case Some(s) => result == s && Contents() == old(Contents())
                case None => fresh(result) && result.customersCommitted == 0
                             && Contents() == Store(old(Contents()), result)
    {
      // tariffMap.get(tariff) is null for a new tariff; scanning no list and
      // scanning an empty list both find nothing.
      var found := FindSubscriptionForCustomer(Lookup(tariffMap, tariff), customer);
      if found.Some? {
        FiledHasKeys(Contents(), tariff, found.value);
        return found.value;
      }
      result := new TariffSubscription(customer, tariff);
      StoreSubscription(result, customer, tariff);
    }

    /** The subscriptions filed under the tariff, as a new list; empty for an unknown tariff. */
    method FindSubscriptionsForTariff(tariff: Tariff) returns (result: seq<TariffSubscription<C>>)
      requires Valid()
      ensures result == Lookup(tariffMap, tariff)
      ensures forall s :: s in result ==> s.tariff == tariff
    {
      if tariff !in tariffMap {
        result := [];
      } else {
        result := tariffMap[tariff];
      }
    }

    /** The subscriptions filed under the customer, as a new list; empty for an unknown customer. */
    method FindSubscriptionsForCustomer(customer: C) returns (result: seq<TariffSubscription<C>>)
      requires Valid()
      ensures result == Lookup(customerMap, customer)
      ensures forall s :: s in result ==> s.customer == customer
    {
      if customer !in customerMap {
        result := [];
      } else {
        result := customerMap[customer];
      }
    }

    /** Files a subscription made elsewhere under its own tariff and customer, without looking for an earlier entry. */
    method Add(subscription: TariffSubscription<C>) returns (result: TariffSubscription<C>)
      requires Valid()
      modifies this
      ensures Valid()
      ensures result == subscription
      ensures Contents() == Store(old(Contents()), subscription)
    {
      StoreSubscription(subscription, subscription.customer, subscription.tariff);
      return subscription;
    }

    /**
     * Drops the first filing of the subscription from its tariff's list and
     * from its customer's list. Both lists must exist: the maps' get would
     * otherwise return null, which is dereferenced.
     */
    method Remove(subscription: TariffSubscription<C>)
      requires Valid() && HasKeys(Contents(), subscription)
      modifies this
      ensures Valid()
      ensures Contents() == Delete(old(Contents()), subscription)
    {
      DeleteConsistent(Contents(), subscription);
      tariffMap := tariffMap[subscription.tariff := RemoveFirst(tariffMap[subscription.tariff], subscription)];
      customerMap := customerMap[subscription.customer := RemoveFirst(customerMap[subscription.customer], subscription)];
    }

    /** Empties both maps, as before another simulation. */
    method Recycle()
      modifies this
      ensures Valid() && Contents() == EmptyIndex()
    {
      tariffMap := map[];
      customerMap := map[];
    }

    /** The first subscription filed under the tariff whose customer is the given one; creates nothing. */
    method FindSubscriptionForCustomerAndTariff(customer: C, tariff: Tariff) returns (result: Option<TariffSubscription<C>>)
      requires Valid()
      ensures result == FirstOfCustomer(Lookup(tariffMap, tariff), customer)
      ensures result.Some? ==> result.value.customer == customer && result.value.tariff == tariff
    {
      var subs := FindSubscriptionsForTariff(tariff);
      result := FindSubscriptionForCustomer(subs, customer);
    }

    /** A scan of the list, in order, stopping at the first subscription of the customer. */
    method FindSubscriptionForCustomer(subs: seq<TariffSubscription<C>>, customer: C) returns (result: Option<TariffSubscription<C>>)
      ensures result == FirstOfCustomer(subs, customer)
    {
      for i := 0 to |subs|
        invariant FirstOfCustomer(subs[i..], customer) == FirstOfCustomer(subs, customer)
      {
        if subs[i].customer == customer {
          return Some(subs[i]);
        }
        assert subs[i..][1..] == subs[i + 1..];
      }
      return None;
    }

    /** Appends the subscription to the lists under the tariff and the customer, creating either list if it is missing. */
    method StoreSubscription(subscription: TariffSubscription<C>, customer: C, tariff: Tariff)
      requires Valid()
      requires subscription.customer == customer && subscription.tariff == tariff
      modifies this
      ensures Valid()
      ensures Contents() == Store(old(Contents()), subscription)
    {
      ghost var before := Contents();
      StoreConsistent(before, subscription);
      if tariff !in tariffMap {
        tariffMap := tariffMap[tariff := []];
      }
      tariffMap := tariffMap[tariff := tariffMap[tariff] + [subscription]];
      if customer !in customerMap {
        customerMap := customerMap[customer := []];
      }
      customerMap := customerMap[customer := customerMap[customer] + [subscription]];
      assert tariffMap == Put(before.byTariff, tariff, subscription);
      assert customerMap == Put(before.byCustomer, customer, subscription);
    }
  }
}
