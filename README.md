# Subscription bookkeeping of the Power TAC customer layer

This project models the part of the Power TAC energy-market simulation that
tracks which customer is subscribed to which tariff, and proves properties of
that model in Dafny. It has three parts.

- **The subscription registry** (`TariffSubscriptionRepo`). It keeps two hash
  maps in step: tariff to the list of its subscriptions, and customer to the
  list of its subscriptions. It offers lookup-or-create, defensive-copy
  queries, add, remove and recycle.
  - The model is the class `SubscriptionRepo.TariffSubscriptionRepo`, with the
    two maps as fields.
  - Its state is read as a value `Index` through `Contents()`.
  - Every method is specified by a function on that value: `Store` for the
    internal `storeSubscription`, `Delete` for `remove`, `FirstOfCustomer` for
    the linear scan.
  - The dual-index invariant is `Consistent`. It says that a list under tariff
    `t` holds only subscriptions to `t`, and a list under customer `c` holds
    only subscriptions of `c`. It also says that every subscription is filed
    equally often in both indexes, so both indexes hold the same multiset.
  - Every mutator keeps this invariant, as the class predicate `Valid()`.
- **The customer's subscription state machine** (`AbstractCustomer`, the
  subscription and tariff-selection operations). It covers:
  - enrolment in the default tariff of each power type;
  - subscribe, and unsubscribe, which removes a subscription from the registry
    exactly when its committed count reaches 0;
  - full and partial switches between tariffs;
  - replacement of revoked subscriptions;
  - the random choice of a tariff other than the default.

  Each method is tied to the registry value it produces.
- **The customer id table** (`AbstractCustomerRepo`): a map from id to
  customer, with add, find, list and recycle.

Customers and tariffs are matched by identity, as in the registry's maps. The
registry is generic in the customer type, and the customer layer instantiates
it with its own class.

The tariff market and the subscription's revocation handler are not part of
this model. They are parameters of each customer: a `TariffMarket` value made
of fixed functions for the market's default tariff, its subscription call, its
active list and its revoked list, and for the subscription's
`handleRevokedTariff`.

Four behaviours of the code are easy to miss, and the model keeps each of them:

- **Removing with an absent key.** A defensive `remove` would ignore a
  missing key. The code dereferences the missing list
  (TariffSubscriptionRepo.java:98-99), which throws. `Remove` and every
  caller therefore require `HasKeys`, both keys present.
- **Pairs filed twice.** `getSubscription` files a new subscription only when
  the pair is not held yet, so it keeps each (customer, tariff) pair at most
  once (`StoreUnique`). `add` appends without looking
  (TariffSubscriptionRepo.java:89-93), so `subscribe`, `subscribeDefault`
  and revocation can file a pair twice. `AddDuplicates` shows this.
- **Subscriptions with count 0.** `getSubscription` creates a subscription
  with count 0 (TariffSubscriptionRepo.java:61). A full switch from a tariff
  the customer does not hold creates such a subscription and removes it
  again, which leaves empty lists behind (`FullyUnsubscribed`).
- **Unchecked withdrawal.** `AbstractCustomer.unsubscribe` passes the count
  on without a check (AbstractCustomer.java:190). The subscription's own
  `unsubscribe` is not part of this model; it is modelled as plain
  subtraction.

## Model

| member | source | states |
|---|---|---|
| Lists.IndexOf | domain/org/powertac/common/AbstractCustomer.java:290 | the index is -1 exactly when the element is absent; otherwise it holds the element and no earlier index does |
| Lists.RemoveFirst | domain/org/powertac/common/repo/TariffSubscriptionRepo.java:98-99 | removing an element takes exactly one copy of it out of the list's multiset; a list without it is returned unchanged |
| Lists.RemoveFirstAt | domain/org/powertac/common/repo/TariffSubscriptionRepo.java:98-99 | removing an element that is present cuts out exactly its first occurrence, and the order of the rest is kept |
| Lists.RemoveAppended | domain/org/powertac/common/repo/TariffSubscriptionRepo.java:98-99 | removing an element just appended to a list that did not hold it gives back the original list |
| SubscriptionRepo.TariffSubscription.constructor | domain/org/powertac/common/repo/TariffSubscriptionRepo.java:61 | a new subscription joins the given customer and tariff and commits nobody |
| SubscriptionRepo.TariffSubscription.Unsubscribe | domain/org/powertac/common/AbstractCustomer.java:190 | the committed count drops by the given number |
| SubscriptionRepo.Store | domain/org/powertac/common/repo/TariffSubscriptionRepo.java:126-137 | after storing, both of the subscription's keys are present |
| SubscriptionRepo.Delete | domain/org/powertac/common/repo/TariffSubscriptionRepo.java:96-100 | removal keeps the key sets of both maps as they were |
| SubscriptionRepo.StoreAll | domain/org/powertac/common/AbstractCustomer.java:165-176 | storing a sequence of subscriptions only adds keys |
| SubscriptionRepo.ReplaceAll | domain/org/powertac/common/AbstractCustomer.java:304-313 | replacing revoked subscriptions one by one only adds keys, so each removal finds its keys |
| SubscriptionRepo.ReplaceAllStep | domain/org/powertac/common/AbstractCustomer.java:308-312 | one loop step removes the next revoked subscription, whose keys are present, and stores its replacement |
| SubscriptionRepo.FirstOfCustomer | domain/org/powertac/common/repo/TariffSubscriptionRepo.java:115-124 | None exactly when no subscription in the list has the customer; otherwise the result has the customer and no earlier entry does |
| SubscriptionRepo.EmptyConsistent | domain/org/powertac/common/repo/TariffSubscriptionRepo.java:44-49 | the empty registry satisfies the dual-index invariant, with no pair held twice |
| SubscriptionRepo.Balanced | domain/org/powertac/common/repo/TariffSubscriptionRepo.java:41-42 | under the invariant, every subscription is filed as often under its tariff as under its customer |
| SubscriptionRepo.StoreConsistent | domain/org/powertac/common/repo/TariffSubscriptionRepo.java:126-137 | storing any subscription keeps the dual-index invariant |
| SubscriptionRepo.DeleteConsistent | domain/org/powertac/common/repo/TariffSubscriptionRepo.java:96-100 | removing a subscription whose keys are present keeps the dual-index invariant |
| SubscriptionRepo.DeleteFiledByTariff | domain/org/powertac/common/repo/TariffSubscriptionRepo.java:98 | after removal, the tariff index still holds only matching subscriptions, each filed as often as under its customer |
| SubscriptionRepo.DeleteFiledByCustomer | domain/org/powertac/common/repo/TariffSubscriptionRepo.java:99 | after removal, the customer index still holds only matching subscriptions, each filed as often as under its tariff |
| SubscriptionRepo.StoreAllConsistent | domain/org/powertac/common/AbstractCustomer.java:167-175 | storing a sequence of subscriptions keeps the dual-index invariant |
| SubscriptionRepo.FiledHasKeys | domain/org/powertac/common/repo/TariffSubscriptionRepo.java:96-100 | a subscription found under a tariff is to that tariff, is filed under its customer too, and can be removed without a missing key |
| SubscriptionRepo.FindAfterStore | domain/org/powertac/common/repo/TariffSubscriptionRepo.java:55-64 | once getSubscription has created and stored a subscription, a second lookup for the same pair finds that same subscription |
| SubscriptionRepo.FirstOfCustomerAppend | domain/org/powertac/common/repo/TariffSubscriptionRepo.java:115-124 | appending a customer's first subscription to a list makes the scan find it |
| SubscriptionRepo.CreatedOnce | domain/org/powertac/common/repo/TariffSubscriptionRepo.java:61-62 | a subscription created for an unheld pair is filed exactly once in each index |
| SubscriptionRepo.DeleteOnce | domain/org/powertac/common/repo/TariffSubscriptionRepo.java:96-100 | removal takes away exactly one filing of the subscription from each index, or none when it was not filed |
| SubscriptionRepo.DeleteFrame | domain/org/powertac/common/repo/TariffSubscriptionRepo.java:96-100 | removal changes only the two lists under the subscription's keys, leaves untouched a list that does not hold it, and cuts exactly its first occurrence |
| SubscriptionRepo.RemoveHeld | domain/org/powertac/common/AbstractCustomer.java:241-243 | while pairs are unique, removing the subscription a customer holds on a tariff leaves it holding nothing there |
| SubscriptionRepo.RemoveFirstOfCustomer | domain/org/powertac/common/repo/TariffSubscriptionRepo.java:98 | in a list without shared customers, removing the customer's entry leaves no entry of that customer |
| SubscriptionRepo.DeleteAfterStore | domain/org/powertac/common/AbstractCustomer.java:241-243 | creating a subscription and removing it again leaves the registry as before, except for the possibly new empty lists |
| SubscriptionRepo.StoreUnique | domain/org/powertac/common/repo/TariffSubscriptionRepo.java:55-64 | getSubscription stores only for an unheld pair, so pair uniqueness is kept |
| SubscriptionRepo.AddDuplicates | domain/org/powertac/common/repo/TariffSubscriptionRepo.java:89-93 | add does not check for an existing entry: adding an already filed subscription breaks pair uniqueness |
| SubscriptionRepo.SwitchSoleSubscription | domain/org/powertac/common/AbstractCustomer.java:256-262 | when a customer's only subscription is moved, the new one becomes its only subscription, and it holds nothing on the old tariff unless the new one is to that tariff |
| SubscriptionRepo.TariffSubscriptionRepo.constructor | domain/org/powertac/common/repo/TariffSubscriptionRepo.java:44-49 | a new registry is empty and satisfies the invariant |
| SubscriptionRepo.TariffSubscriptionRepo.GetSubscription | domain/org/powertac/common/repo/TariffSubscriptionRepo.java:55-64 | returns the pair's existing subscription and changes nothing; otherwise returns a fresh subscription with count 0, stored under both keys; the invariant is kept |
| SubscriptionRepo.TariffSubscriptionRepo.FindSubscriptionsForTariff | domain/org/powertac/common/repo/TariffSubscriptionRepo.java:67-75 | the tariff's list in order, or an empty list for an unknown tariff; every entry is to that tariff; nothing changes |
| SubscriptionRepo.TariffSubscriptionRepo.FindSubscriptionsForCustomer | domain/org/powertac/common/repo/TariffSubscriptionRepo.java:78-86 | the customer's list in order, or an empty list for an unknown customer; every entry is of that customer; nothing changes |
| SubscriptionRepo.TariffSubscriptionRepo.Add | domain/org/powertac/common/repo/TariffSubscriptionRepo.java:89-93 | returns its argument and appends it under its own tariff and customer without checking for an existing entry; the invariant is kept |
| SubscriptionRepo.TariffSubscriptionRepo.Remove | domain/org/powertac/common/repo/TariffSubscriptionRepo.java:96-100 | with both keys present, removes the subscription's first occurrence from both lists; the invariant is kept |
| SubscriptionRepo.TariffSubscriptionRepo.Recycle | domain/org/powertac/common/repo/TariffSubscriptionRepo.java:103-107 | both maps become empty, so every later query finds nothing |
| SubscriptionRepo.TariffSubscriptionRepo.FindSubscriptionForCustomerAndTariff | domain/org/powertac/common/repo/TariffSubscriptionRepo.java:109-113 | creates and changes nothing; returns the first subscription of the customer in the tariff's list, or None |
| SubscriptionRepo.TariffSubscriptionRepo.FindSubscriptionForCustomer | domain/org/powertac/common/repo/TariffSubscriptionRepo.java:115-124 | the loop with early return yields the list's first subscription of the customer, or None |
| SubscriptionRepo.TariffSubscriptionRepo.StoreSubscription | domain/org/powertac/common/repo/TariffSubscriptionRepo.java:126-137 | creates missing lists and appends the subscription under its tariff and its customer; the invariant is kept |
| Customers.AbstractCustomer.constructor | domain/org/powertac/common/AbstractCustomer.java:88-122 | GetId and GetCustId are the id of the customer's description, and GetPopulation is its population |
| Customers.AbstractCustomer.DefaultSubscriptions | domain/org/powertac/common/AbstractCustomer.java:165-176 | as many subscriptions as power types with a default tariff; each is the market's subscription of the whole population to some type's default, and every such subscription is included |
| Customers.AbstractCustomer.DefaultSubscriptionsConcat | domain/org/powertac/common/AbstractCustomer.java:167 | the power types are handled in list order: the result for a concatenation is the first list's result followed by the second's |
| Customers.AbstractCustomer.DefaultSubscriptionsSingle | domain/org/powertac/common/AbstractCustomer.java:168-174 | a power type without a default contributes nothing; one with a default contributes exactly the market's subscription of the whole population to it |
| Customers.AbstractCustomer.SubscribeDefault | domain/org/powertac/common/AbstractCustomer.java:165-176 | the power types are handled in order: a type without a default is skipped, otherwise the market's subscription is stored |
| Customers.AbstractCustomer.Subscribe | domain/org/powertac/common/AbstractCustomer.java:179-183 | stores exactly the market's subscription for this tariff, this customer and this count, and nothing else |
| Customers.AbstractCustomer.Unsubscribe | domain/org/powertac/common/AbstractCustomer.java:186-196 | the count drops by the given number, and the subscription is removed from the registry exactly when it becomes 0; otherwise the registry is untouched |
| Customers.AbstractCustomer.AddSubscription | domain/org/powertac/common/AbstractCustomer.java:199-203 | the subscription is stored under both its keys |
| Customers.AbstractCustomer.RemoveSubscription | domain/org/powertac/common/AbstractCustomer.java:206-210 | the subscription is removed from both its lists |
| Customers.AbstractCustomer.FullyUnsubscribed | domain/org/powertac/common/AbstractCustomer.java:241-243 | withdrawing everything on a tariff removes the held subscription, or leaves only empty lists when none was held |
| Customers.AbstractCustomer.NothingHeldAfterUnsubscribe | domain/org/powertac/common/AbstractCustomer.java:241-243 | while pairs are unique, the customer holds nothing on the tariff after withdrawing everything |
| Customers.AbstractCustomer.ChangeSubscription | domain/org/powertac/common/AbstractCustomer.java:239-247 | withdraws the whole commitment on the tariff, then subscribes the same count to an alternative chosen from the power type's active list; with an empty list the choice fails after the withdrawal; every other subscription on the old tariff keeps its count |
| Customers.AbstractCustomer.ChangeSubscriptionTo | domain/org/powertac/common/AbstractCustomer.java:256-262 | withdraws the whole commitment on the tariff, which removes its subscription, then subscribes the same count to the new tariff; every other subscription on the old tariff keeps its count |
| Customers.AbstractCustomer.WithdrawAll | domain/org/powertac/common/AbstractCustomer.java:241-243 | returns the commitment held on the tariff (0 when none is held) and leaves the registry with that subscription removed, the lone subscription getSubscription created withdrawn again when none was held; the subscription worked on is the one held or a fresh one, and every other subscription on the tariff keeps its count |
| Customers.AbstractCustomer.UnsubscribeAll | domain/org/powertac/common/AbstractCustomer.java:242-243 | unsubscribing the full count of the subscription getSubscription returned leaves it at 0 and removes it from the registry |
| Customers.AbstractCustomer.ChangeSubscriptionPart | domain/org/powertac/common/AbstractCustomer.java:271-276 | the old subscription keeps its count minus the moved part, stays in the registry unless that is 0, and the moved part is subscribed to the new tariff; every other subscription on the old tariff keeps its count |
| Customers.AbstractCustomer.SelectTariff | domain/org/powertac/common/AbstractCustomer.java:282-298 | returns a tariff of the active list at an index other than the default's, which is not the default when the list has no repeats; None exactly for an empty list |
| Customers.AbstractCustomer.CheckRevokedSubscriptions | domain/org/powertac/common/AbstractCustomer.java:304-313 | for each revoked subscription in order, removes it and stores its replacement |
| CustomerRepo.AbstractCustomerRepo.constructor | domain/org/powertac/common/repo/AbstractCustomerRepo.java:40-44 | a new table is empty |
| CustomerRepo.AbstractCustomerRepo.Add | domain/org/powertac/common/repo/AbstractCustomerRepo.java:46-49 | the customer is found under its id afterwards, replacing any earlier one; every other id keeps its customer; at most one customer per id |
| CustomerRepo.AbstractCustomerRepo.List | domain/org/powertac/common/repo/AbstractCustomerRepo.java:51-54 | exactly the stored customers, as many as there are ids |
| CustomerRepo.AbstractCustomerRepo.FindById | domain/org/powertac/common/repo/AbstractCustomerRepo.java:56-59 | the customer filed under the id, whose own id it is, or None exactly when the id was never added |
| CustomerRepo.AbstractCustomerRepo.Recycle | domain/org/powertac/common/repo/AbstractCustomerRepo.java:61-64 | the table becomes empty, so List is empty and FindById finds nothing |
| CustomerRepo.OnePerId | domain/org/powertac/common/repo/AbstractCustomerRepo.java:51-54 | a table filing each customer under its own id has as many customers as ids |

## Left out

- Framework lookup of the registry, time service and market in the customer constructor: the registry and the market are constructor parameters instead, and the time service is not used by this core.
- Logging and `toString`: they produce only log text.
- The double-valued power and environmental coefficients and their getters: they are floating point and not used by the subscription operations.
- `consumePower`, `producePower` and `step`: their bodies are empty.
- The internals of the tariff market and of the subscription's revocation handler are not shown. Their calls are fixed functions of their arguments, so any change they make to the registry or to other state is not modelled.
- Customers.AbstractCustomer.SelectTariff: the random draw with retries is a free choice among the indexes other than the default's. Its precondition excludes the one case where the retry loop never ends: a single active tariff that is the default. The `IndexOutOfBoundsException` for an empty active list is modelled as `None`.
- Customers.AbstractCustomer.ChangeSubscription: when the active list is empty, the source throws after the withdrawal. The model returns `None` with the registry as it is after the withdrawal.
- SubscriptionRepo.TariffSubscriptionRepo.Remove: a missing key makes the source throw. The model requires both keys, and so do `RemoveSubscription`, `Unsubscribe` (when the count reaches 0) and `CheckRevokedSubscriptions`.
- SubscriptionRepo.TariffSubscription.Unsubscribe: withdrawing more than is committed makes the count negative in the model, and the subscription then stays in the registry. The customer tests (AbstractCustomerTests.java:239-244) expect such a withdrawal to stop at 0 and remove the subscription, which points to a clamp inside the subscription's unsubscribe. That code is not part of this model. Committed counts and customer ids are also unbounded integers, so Java `int`/`long` wrap-around is not modelled.
- SubscriptionRepo.TariffSubscriptionRepo.FindSubscriptionsForTariff: the copies it returns are values, so the independence of the caller's copy from the registry holds by construction and is not stated.
- CustomerRepo.AbstractCustomerRepo.List: the source returns a live view of the map's values; the model returns a set snapshot.
- Hash-map key equality: keys are compared by identity. The `equals` and `hashCode` of customers and tariffs are not part of this model.
- The `PowerType` enumeration is not part of this model: a power type is its name.
- The tariff's other attributes (its specification, lifecycle state, expiration and duration) are not part of this model. A tariff has an id and a power type.
