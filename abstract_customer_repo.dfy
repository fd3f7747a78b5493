/** The table of all customers, keyed by customer id. */
module CustomerRepo {
  import opened Options
  import opened Customers

  class AbstractCustomerRepo {
    var idTable: map<int, AbstractCustomer>

    /** Every customer is filed under its own id, so the table holds at most one customer per id. */
    ghost predicate Valid()
      reads this
    {
      forall id :: id in idTable ==> idTable[id].GetId() == id
    }

    constructor ()
      ensures Valid() && idTable == map[]
    {
      idTable := map[];
    }

    /** Files the customer under its id, replacing any customer filed there before. */
    method Add(customer: AbstractCustomer)
      requires Valid()
      modifies this
      ensures Valid()
      ensures customer.GetId() in idTable && idTable[customer.GetId()] == customer
      ensures forall id :: id in old(idTable) && id != customer.GetId() ==> id in idTable && idTable[id] == old(idTable)[id]
      ensures idTable.Keys == old(idTable).Keys + {customer.GetId()}
    {
      idTable := idTable[customer.GetId() := customer];
    }

    /** All stored customers, one for each id in the table. */
    method List() returns (result: set<AbstractCustomer>)
      requires Valid()
      ensures forall c :: c in result <==> exists id :: id in idTable && idTable[id] == c
      ensures |result| == |idTable|
    {
      result := idTable.Values;
      OnePerId(idTable);
    }

    /** The customer filed under id, or None when no customer has that id. */
    method FindById(id: int) returns (result: Option<AbstractCustomer>)
      requires Valid()
      ensures result.Some? <==> id in idTable
      ensures result.Some? ==> result.value == idTable[id] && result.value.GetId() == id
    {
      if id in idTable {
        result := Some(idTable[id]);
      } else {
        result := None;
      }
    }

    /** Empties the table. */
    method Recycle()
      modifies this
      ensures Valid() && idTable == map[]
    {
      idTable := map[];
    }
  }

  /** A table filing every customer under its own id holds as many customers as ids. */
  lemma {:induction false} OnePerId(m: map<int, AbstractCustomer>)
    requires forall id :: id in m ==> m[id].GetId() == id
    ensures |m.Values| == |m|
  {
    if exists k :: k in m {
      var k :| k in m;
      var rest := m - {k};
      OnePerId(rest);
      assert m.Values == rest.Values + {m[k]};
      assert m[k] !in rest.Values;
    } else {
      assert m.Keys == {};
      assert m.Values == {};
    }
  }
}
