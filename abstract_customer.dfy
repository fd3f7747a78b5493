/**
 * The customer's side of subscription bookkeeping: default enrolment, subscribe
 * and unsubscribe, full and partial switches between tariffs, replacement of
 * revoked subscriptions, and the random choice of a tariff other than the
 * default. Every operation works by updating the shared subscription registry.
 */
module Customers {
  import opened Options
  import opened Lists
  import opened Tariffs
  import opened SubscriptionRepo

  type Subscription = TariffSubscription<AbstractCustomer>

  /** The customer's description: id, name, population and the power types it takes part in. */
  datatype CustomerInfo = CustomerInfo(id: int, name: string, population: int, powerTypes: seq<PowerType>)

  /**
   * The collaborators of the customer, as fixed functions of their arguments:
   * the tariff market's getDefaultTariff, subscribeToTariff,
   * getActiveTariffList and getRevokedSubscriptionList, and the subscription's
   * own handleRevokedTariff, which yields the replacement of a revoked
   * subscription. What these do inside the market is not part of this model.
   */
  datatype TariffMarket = TariffMarket(
    getDefaultTariff: PowerType -> Option<Tariff>,
    subscribeToTariff: (Tariff, AbstractCustomer, int) -> Subscription,
    getActiveTariffList: PowerType -> seq<Tariff>,
    getRevokedSubscriptionList: AbstractCustomer -> seq<Subscription>,
    handleRevokedTariff: Subscription -> Subscription)

  class AbstractCustomer {
    const custId: int
    const customerInfo: CustomerInfo
    const tariffSubscriptionRepo: TariffSubscriptionRepo<AbstractCustomer>
    const tariffMarketService: TariffMarket

    /** A customer takes its id from its description; the registry and the market are handed in. */
    constructor (info: CustomerInfo, repo: TariffSubscriptionRepo<AbstractCustomer>, market: TariffMarket)
      ensures GetId() == info.id && GetCustId() == info.id && GetPopulation() == info.population
      ensures customerInfo == info && tariffSubscriptionRepo == repo && tariffMarketService == market
    {
      custId := info.id;
      customerInfo := info;
      tariffSubscriptionRepo := repo;
      tariffMarketService := market;
    }

    function GetPopulation(): int
    {
      customerInfo.population
    }

    function GetCustId(): int
    {
      custId
    }

    /** Synonym for GetCustId. */
    function GetId(): int
    {
      custId
    }

    // -------------------------------------------------------------------------
    // Specification functions
    // -------------------------------------------------------------------------

    /** The subscription of this customer that the registry's scan of the tariff's list finds. */
    function Held(ix: Index<AbstractCustomer>, tariff: Tariff): Option<Subscription>
    {
      FirstOfCustomer(Lookup(ix.byTariff, tariff), this)
    }

    /**
     * The registry after the whole commitment on the tariff is withdrawn:
     * the subscription held on it is removed; when none was held, the one just
     * created for the purpose is removed again and only its lists remain.
     */
    function FullyUnsubscribed(ix: Index<AbstractCustomer>, tariff: Tariff): Index<AbstractCustomer>
      requires Consistent(ix)
    {
      match Held(ix, tariff)
      case Some(s) => FiledHasKeys(ix, tariff, s); Delete(ix, s)
      case None => WithKeys(ix, tariff, this)
    }

    /**
     * While the registry holds each (customer, tariff) pair at most once, a
     * withdrawn commitment leaves this customer holding nothing on the tariff.
     */
    lemma NothingHeldAfterUnsubscribe(ix: Index<AbstractCustomer>, tariff: Tariff)
      requires Consistent(ix) && UniquePairs(ix)
      ensures Held(FullyUnsubscribed(ix, tariff), tariff).None?
    {
      match Held(ix, tariff)
      case Some(s) => RemoveHeld(ix, tariff, this, s);
      case None =>
    }

    /** The commitments of subs, in list order. */
    function Counts(subs: seq<Subscription>): seq<int>
      reads set s | s in subs
    {
      seq(|subs|, i reads set s | s in subs requires 0 <= i < |subs| => subs[i].customersCommitted)
    }

    /** Every subscription of subs other than touched has the commitment counts gives it. */
    predicate CountsKept(subs: seq<Subscription>, counts: seq<int>, touched: Subscription)
      reads set s | s in subs
    {
      && |counts| == |subs|
      && forall i :: 0 <= i < |subs| && subs[i] != touched ==> subs[i].customersCommitted == counts[i]
    }

    /** The commitment held on the tariff, or 0 when no subscription is held on it. */
    function CommittedOn(tariff: Tariff): int
      reads tariffSubscriptionRepo, set s | s in Lookup(tariffSubscriptionRepo.tariffMap, tariff)
    {
      match Held(tariffSubscriptionRepo.Contents(), tariff)
      case Some(s) => s.customersCommitted
      case None => 0
    }

    /** The subscriptions subscribeDefault obtains from the market, in power-type order. */
    function DefaultSubscriptions(types: seq<PowerType>): (r: seq<Subscription>)
      ensures |r| <= |types|
      ensures |r| == DefaultCount(types)
      ensures forall s :: s in r ==>
        exists i :: 0 <= i < |types| && IsDefaultSubscription(types[i], s)
      ensures forall i :: 0 <= i < |types| && tariffMarketService.getDefaultTariff(types[i]).Some? ==>
        tariffMarketService.subscribeToTariff(tariffMarketService.getDefaultTariff(types[i]).value, this, GetPopulation()) in r
    {
      if types == [] then []
      else
        var init := types[..|types| - 1];
        var last := types[|types| - 1];
        var r := DefaultSubscriptions(init);
        assert forall i :: 0 <= i < |init| ==> init[i] == types[i];
        match tariffMarketService.getDefaultTariff(last)
        case None => r
        case Some(d) => r + [tariffMarketService.subscribeToTariff(d, this, GetPopulation())]
    }

    /** How many of the power types have a default tariff. */
    function DefaultCount(types: seq<PowerType>): (n: nat)
      ensures n <= |types|
    {
      if types == [] then 0
      else
        DefaultCount(types[..|types| - 1])
        + (if tariffMarketService.getDefaultTariff(types[|types| - 1]).Some? then 1 else 0)
    }

    /**
     * Power types are handled in order: the subscriptions for a concatenation
     * of power-type lists are those of the first list followed by those of
     * the second.
     */
    lemma {:induction false} DefaultSubscriptionsConcat(a: seq<PowerType>, b: seq<PowerType>)
      ensures DefaultSubscriptions(a + b) == DefaultSubscriptions(a) + DefaultSubscriptions(b)
    {
      if b == [] {
        assert a + b == a;
      } else {
        var init := b[..|b| - 1];
        assert (a + b)[..|a + b| - 1] == a + init;
        assert (a + b)[|a + b| - 1] == b[|b| - 1];
        DefaultSubscriptionsConcat(a, init);
      }
    }

    /** A single power type contributes its default subscription, or nothing when it has no default. */
    lemma DefaultSubscriptionsSingle(powerType: PowerType)
      ensures DefaultSubscriptions([powerType])
              == match tariffMarketService.getDefaultTariff(powerType)
                 case None => []
                 case Some(d) => [tariffMarketService.subscribeToTariff(d, this, GetPopulation())]
    {
      assert [powerType][..0] == [];
    }

    /** s is what the market returns when this customer's whole population subscribes to the power type's default tariff. */
    predicate IsDefaultSubscription(powerType: PowerType, s: Subscription)
    {
      var d := tariffMarketService.getDefaultTariff(powerType);
      d.Some? && s == tariffMarketService.subscribeToTariff(d.value, this, GetPopulation())
    }

    /** indexOf of the default tariff in the active list: -1 when there is no default or it is not listed. */
    function DefaultIndex(powerType: PowerType): int
    {
      match tariffMarketService.getDefaultTariff(powerType)
      case None => -1
      case Some(d) => IndexOf(tariffMarketService.getActiveTariffList(powerType), d)
    }

    /**
     * The retry loop of selectTariff ends: it runs forever only when the
     * active list's one tariff is the default, so that every draw is the
     * default's index. An empty list ends it at once, since the first draw,
     * 0, differs from -1.
     */
    predicate SelectionTerminates(powerType: PowerType)
    {
      !(|tariffMarketService.getActiveTariffList(powerType)| == 1 && DefaultIndex(powerType) == 0)
    }

    /** t sits in the active list at an index other than the default's. */
    predicate IsAlternative(powerType: PowerType, t: Tariff)
    {
      var available := tariffMarketService.getActiveTariffList(powerType);
      exists k :: 0 <= k < |available| && k != DefaultIndex(powerType) && available[k] == t
    }

    // -------------------------------------------------------------------------
    // Subscription
    // -------------------------------------------------------------------------

    /**
     * For each power type in order: a type without a default tariff is
     * skipped; otherwise the whole population is subscribed to the default
     * through the market and the market's subscription is added to the registry.
     */
    method SubscribeDefault()
      requires tariffSubscriptionRepo.Valid()
      modifies tariffSubscriptionRepo
      ensures tariffSubscriptionRepo.Valid()
      ensures tariffSubscriptionRepo.Contents()
              == StoreAll(old(tariffSubscriptionRepo.Contents()), DefaultSubscriptions(customerInfo.powerTypes))
    {
      var types := customerInfo.powerTypes;
      for i := 0 to |types|
        invariant tariffSubscriptionRepo.Valid()
        invariant tariffSubscriptionRepo.Contents()
                  == StoreAll(old(tariffSubscriptionRepo.Contents()), DefaultSubscriptions(types[..i]))
      {
        assert types[..i + 1][..i] == types[..i];
        if tariffMarketService.getDefaultTariff(types[i]).Some? {
          var ts := tariffMarketService.subscribeToTariff(tariffMarketService.getDefaultTariff(types[i]).value, this, GetPopulation());
          var _ := tariffSubscriptionRepo.Add(ts);
        }
      }
      assert types[..|types|] == types;
    }

    /** Adds to the registry exactly the subscription the market returns for (tariff, this, customerCount). */
    method Subscribe(tariff: Tariff, customerCount: int)
      requires tariffSubscriptionRepo.Valid()
      modifies tariffSubscriptionRepo
      ensures tariffSubscriptionRepo.Valid()
      ensures tariffSubscriptionRepo.Contents()
              == Store(old(tariffSubscriptionRepo.Contents()), tariffMarketService.subscribeToTariff(tariff, this, customerCount))
    {
      var _ := tariffSubscriptionRepo.Add(tariffMarketService.subscribeToTariff(tariff, this, customerCount));
    }

    /**
     * Withdraws customerCount from the subscription, and removes the
     * subscription from the registry exactly when its commitment is then 0.
     */
    method Unsubscribe(subscription: Subscription, customerCount: int)
      requires tariffSubscriptionRepo.Valid()
      requires subscription.customersCommitted - customerCount == 0 ==>
                 HasKeys(tariffSubscriptionRepo.Contents(), subscription)
      modifies subscription, tariffSubscriptionRepo
      ensures tariffSubscriptionRepo.Valid()
      ensures subscription.customersCommitted == old(subscription.customersCommitted) - customerCount
      ensures tariffSubscriptionRepo.Contents()
              == if subscription.customersCommitted == 0
                 then Delete(old(tariffSubscriptionRepo.Contents()), subscription)
                 else old(tariffSubscriptionRepo.Contents())
    {
      subscription.Unsubscribe(customerCount);
      if subscription.customersCommitted == 0 {
        RemoveSubscription(subscription);
      }
    }

    /** Adds a subscription to the registry. */
    method AddSubscription(ts: Subscription)
      requires tariffSubscriptionRepo.Valid()
      modifies tariffSubscriptionRepo
      ensures tariffSubscriptionRepo.Valid()
      ensures tariffSubscriptionRepo.Contents() == Store(old(tariffSubscriptionRepo.Contents()), ts)
    {
      var _ := tariffSubscriptionRepo.Add(ts);
    }

    /** Removes a subscription from the registry; both its keys must be there. */
    method RemoveSubscription(ts: Subscription)
      requires tariffSubscriptionRepo.Valid() && HasKeys(tariffSubscriptionRepo.Contents(), ts)
      modifies tariffSubscriptionRepo
      ensures tariffSubscriptionRepo.Valid()
      ensures tariffSubscriptionRepo.Contents() == Delete(old(tariffSubscriptionRepo.Contents()), ts)
    {
      tariffSubscriptionRepo.Remove(ts);
    }

    // -------------------------------------------------------------------------
    // Tariff selection
    // -------------------------------------------------------------------------

    /**
     * Unsubscribes the whole commitment held on the tariff, which is thereby
     * removed from the registry, and subscribes the same count to a tariff
     * picked by SelectTariff for the tariff's power type. When the active list
     * is empty the pick fails (None) after the old subscription is gone.
     */
    method ChangeSubscription(tariff: Tariff) returns (newTariff: Option<Tariff>, ghost touched: Subscription)
      requires tariffSubscriptionRepo.Valid() && SelectionTerminates(tariff.powerType)
      modifies tariffSubscriptionRepo, set s | s in Lookup(tariffSubscriptionRepo.tariffMap, tariff)
      ensures tariffSubscriptionRepo.Valid()
      ensures touched.customer == this && touched.tariff == tariff && touched.customersCommitted == 0
      ensures CountsKept(old(Lookup(tariffSubscriptionRepo.tariffMap, tariff)), old(Counts(Lookup(tariffSubscriptionRepo.tariffMap, tariff))), touched)
      ensures old(Held(tariffSubscriptionRepo.Contents(), tariff)).Some? ==> old(Held(tariffSubscriptionRepo.Contents(), tariff)) == Some(touched)
      ensures old(Held(tariffSubscriptionRepo.Contents(), tariff)).None? ==> fresh(touched)
      ensures newTariff.None? <==> |tariffMarketService.getActiveTariffList(tariff.powerType)| == 0
      ensures newTariff.Some? ==> IsAlternative(tariff.powerType, newTariff.value)
      ensures var unsubscribed := FullyUnsubscribed(old(tariffSubscriptionRepo.Contents()), tariff);
              tariffSubscriptionRepo.Contents()
              == if newTariff.None? then unsubscribed
                 else Store(unsubscribed, tariffMarketService.subscribeToTariff(newTariff.value, this, old(CommittedOn(tariff))))
    {
      ghost var before := tariffSubscriptionRepo.Contents();
      var populationCount;
      populationCount, touched := WithdrawAll(tariff);
      ghost var unsubscribed := tariffSubscriptionRepo.Contents();
      assert unsubscribed == FullyUnsubscribed(before, tariff);
      newTariff := SelectTariff(tariff.powerType);
      if newTariff.Some? {
        Subscribe(newTariff.value, populationCount);
        assert tariffSubscriptionRepo.Contents() == Store(unsubscribed, tariffMarketService.subscribeToTariff(newTariff.value, this, populationCount));
      }
    }

    /**
     * Unsubscribes the whole commitment held on the tariff, which is thereby
     * removed from the registry, and subscribes the same count to newTariff.
     */
    method ChangeSubscriptionTo(tariff: Tariff, newTariff: Tariff) returns (ghost touched: Subscription)
      requires tariffSubscriptionRepo.Valid()
      modifies tariffSubscriptionRepo, set s | s in Lookup(tariffSubscriptionRepo.tariffMap, tariff)
      ensures tariffSubscriptionRepo.Valid()
      ensures touched.customer == this && touched.tariff == tariff && touched.customersCommitted == 0
      ensures CountsKept(old(Lookup(tariffSubscriptionRepo.tariffMap, tariff)), old(Counts(Lookup(tariffSubscriptionRepo.tariffMap, tariff))), touched)
      ensures old(Held(tariffSubscriptionRepo.Contents(), tariff)).Some? ==> old(Held(tariffSubscriptionRepo.Contents(), tariff)) == Some(touched)
      ensures old(Held(tariffSubscriptionRepo.Contents(), tariff)).None? ==> fresh(touched)
      ensures tariffSubscriptionRepo.Contents()
              == Store(FullyUnsubscribed(old(tariffSubscriptionRepo.Contents()), tariff),
                       tariffMarketService.subscribeToTariff(newTariff, this, old(CommittedOn(tariff))))
    {
      var populationCount;
      populationCount, touched := WithdrawAll(tariff);
      Subscribe(newTariff, populationCount);
    }

    /**
     * The first half of both full switches: looks up (or creates) the
     * subscription for the tariff and withdraws its whole commitment, which
     * removes it from the registry. Returns the withdrawn count.
     */
    method WithdrawAll(tariff: Tariff) returns (populationCount: int, ghost touched: Subscription)
      requires tariffSubscriptionRepo.Valid()
      modifies tariffSubscriptionRepo, set s | s in Lookup(tariffSubscriptionRepo.tariffMap, tariff)
      ensures tariffSubscriptionRepo.Valid()
      ensures populationCount == old(CommittedOn(tariff))
      ensures touched.customer == this && touched.tariff == tariff && touched.customersCommitted == 0
      ensures CountsKept(old(Lookup(tariffSubscriptionRepo.tariffMap, tariff)), old(Counts(Lookup(tariffSubscriptionRepo.tariffMap, tariff))), touched)
      ensures old(Held(tariffSubscriptionRepo.Contents(), tariff)).Some? ==> old(Held(tariffSubscriptionRepo.Contents(), tariff)) == Some(touched)
      ensures old(Held(tariffSubscriptionRepo.Contents(), tariff)).None? ==> fresh(touched)
      ensures tariffSubscriptionRepo.Contents() == FullyUnsubscribed(old(tariffSubscriptionRepo.Contents()), tariff)
    {
      ghost var before := tariffSubscriptionRepo.Contents();
      var ts := tariffSubscriptionRepo.GetSubscription(this, tariff);
      populationCount := ts.customersCommitted;
      UnsubscribeAll(before, tariff, ts);
      touched := ts;
    }

    /**
     * The withdrawal step of WithdrawAll: withdraws all of ts, the
     * subscription getSubscription gave for the tariff, which removes it.
     */
    method UnsubscribeAll(ghost before: Index<AbstractCustomer>, tariff: Tariff, ts: Subscription)
      requires Consistent(before) && tariffSubscriptionRepo.Valid()
      requires ts.customer == this && ts.tariff == tariff
      requires match Held(before, tariff)
                 case Some(s) => ts == s && tariffSubscriptionRepo.Contents() == before
                 case None => ts !in Lookup(before.byTariff, tariff) && ts !in Lookup(before.byCustomer, this)
                              && ts.customersCommitted == 0 && tariffSubscriptionRepo.Contents() == Store(before, ts)
      modifies ts, tariffSubscriptionRepo
      ensures tariffSubscriptionRepo.Valid() && ts.customersCommitted == 0
      ensures tariffSubscriptionRepo.Contents() == FullyUnsubscribed(before, tariff)
    {
      if Held(before, tariff).Some? {
        FiledHasKeys(before, tariff, ts);
      } else {
        DeleteAfterStore(before, ts);
      }
      Unsubscribe(ts, ts.customersCommitted);
    }

    /**
     * Moves populationCount of the commitment on tariff to newTariff: the
     * subscription for the tariff (created if none was held) keeps the rest
     * and stays in the registry unless the rest is 0.
     */
    method ChangeSubscriptionPart(tariff: Tariff, newTariff: Tariff, populationCount: int) returns (ghost touched: Subscription)
      requires tariffSubscriptionRepo.Valid()
      modifies tariffSubscriptionRepo, set s | s in Lookup(tariffSubscriptionRepo.tariffMap, tariff)
      ensures tariffSubscriptionRepo.Valid()
      ensures touched.customer == this && touched.tariff == tariff
      ensures CountsKept(old(Lookup(tariffSubscriptionRepo.tariffMap, tariff)), old(Counts(Lookup(tariffSubscriptionRepo.tariffMap, tariff))), touched)
      ensures touched.customersCommitted == old(CommittedOn(tariff)) - populationCount
      ensures var before := old(tariffSubscriptionRepo.Contents());
              var filed := if Held(before, tariff).Some? then before else Store(before, touched);
              && (Held(before, tariff) == Some(touched) || (Held(before, tariff).None? && fresh(touched)))
              && HasKeys(filed, touched)
              && tariffSubscriptionRepo.Contents()
                 == Store(if touched.customersCommitted == 0 then Delete(filed, touched) else filed,
                          tariffMarketService.subscribeToTariff(newTariff, this, populationCount))
    {
      ghost var before := tariffSubscriptionRepo.Contents();
      var ts := tariffSubscriptionRepo.GetSubscription(this, tariff);
      if Held(before, tariff).Some? {
        FiledHasKeys(before, tariff, ts);
      }
      Unsubscribe(ts, populationCount);
      Subscribe(newTariff, populationCount);
      touched := ts;
    }

    /**
     * A tariff of the power type's active list at an index other than that
     * of the default tariff. The source draws random indexes until one
     * differs; here the draw is a free choice among those indexes. An empty
     * active list leaves nothing to return (None).
     */
    method SelectTariff(powerType: PowerType) returns (result: Option<Tariff>)
      requires SelectionTerminates(powerType)
      ensures result.None? <==> |tariffMarketService.getActiveTariffList(powerType)| == 0
      ensures result.Some? ==> IsAlternative(powerType, result.value)
      ensures result.Some? && Distinct(tariffMarketService.getActiveTariffList(powerType)) ==>
                tariffMarketService.getDefaultTariff(powerType) != Some(result.value)
    {
      var available := tariffMarketService.getActiveTariffList(powerType);
      var index := DefaultIndex(powerType);
      if |available| == 0 {
        // The first draw is 0, which differs from -1, and get(0) fails.
        return None;
      }
      assert (0 != index && 0 < |available|) || (1 != index && 1 < |available|);
      var ran :| 0 <= ran < |available| && ran != index;
      result := Some(available[ran]);
      if Distinct(available) {
        // A repeat-free list holds the drawn tariff at the drawn index only.
        IndexOfDistinct(available, ran);
      }
    }

    /**
     * For each revoked subscription, in the market's order: obtains its
     * replacement, removes it from the registry and adds the replacement.
     */
    method CheckRevokedSubscriptions()
      requires tariffSubscriptionRepo.Valid()
      requires forall s :: s in tariffMarketService.getRevokedSubscriptionList(this) ==>
                 HasKeys(tariffSubscriptionRepo.Contents(), s)
      modifies tariffSubscriptionRepo
      ensures tariffSubscriptionRepo.Valid()
      ensures tariffSubscriptionRepo.Contents()
              == ReplaceAll(old(tariffSubscriptionRepo.Contents()), tariffMarketService.getRevokedSubscriptionList(this),
                            tariffMarketService.handleRevokedTariff)
    {
      var revoked := tariffMarketService.getRevokedSubscriptionList(this);
      ghost var before := tariffSubscriptionRepo.Contents();
      for i := 0 to |revoked|
        invariant tariffSubscriptionRepo.Valid()
        invariant tariffSubscriptionRepo.Contents() == ReplaceAll(before, revoked[..i], tariffMarketService.handleRevokedTariff)
      {
        ReplaceAllStep(before, revoked, tariffMarketService.handleRevokedTariff, i);
        var ts := tariffMarketService.handleRevokedTariff(revoked[i]);
        RemoveSubscription(revoked[i]);
        AddSubscription(ts);
      }
      assert revoked[..|revoked|] == revoked;
    }
  }
}
