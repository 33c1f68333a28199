/**
 * The request-id counter. In the source it is a `static` member of
 * TradeExecution, so one counter serves every client in the process; here it
 * is one object that every client is given a reference to.
 */
module RequestIds {

  class Counter {
    /** The id the next request will get. */
    var value: int
    /** The ids handed out so far. */
    ghost var issued: set<int>

    /** Ids are handed out from 1 upwards, each exactly once. */
    ghost predicate Valid()
      reads this
    {
      value >= 1 && forall i :: i in issued <==> 1 <= i < value
    }

    /** The process starts the counter at 1. */
    constructor ()
      ensures Valid() && value == 1 && issued == {}
    {
      value := 1;
      issued := {};
    }

    /** Post-increment: the current value is the id, the counter moves on by one. */
    method FetchAndIncrement() returns (id: int)
      requires Valid()
      modifies this
      ensures Valid()
      ensures id == old(value) && value == old(value) + 1
      ensures id !in old(issued) && issued == old(issued) + {id}
    {
      id := value;
      issued := issued + {id};
      value := value + 1;
    }
  }
}
