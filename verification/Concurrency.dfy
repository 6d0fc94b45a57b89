/** The process-wide in-flight counters, for calls that nothing interrupts. GatewayLimiter has the
    interleaved operations. */
module Concurrency {

  class UserConcurrency {
    var counters: map<int, int>

    constructor ()
      ensures counters == map[]
    {
      counters := map[];
    }

    function InFlight(user: int): int
      reads this
    {
      if user in counters then counters[user] else 0
    }

    method TryAcquire(user: int, max: int) returns (ok: bool)
      modifies this
      ensures ok <==> max <= 0 || old(InFlight(user)) < max
      ensures max <= 0 ==> counters == old(counters)
      ensures max > 0 ==> counters == old(counters)[user := old(InFlight(user)) + if ok then 1 else 0]
    {
      if max <= 0 { return true; }
      if user !in counters { counters := counters[user := 0]; }
      var c := counters[user] + 1;
      counters := counters[user := c];
      if c > max {
        counters := counters[user := counters[user] - 1];
        return false;
      }
      return true;
    }

    method Release(user: int)
      modifies this
      ensures counters ==
        if user in old(counters) then old(counters)[user := old(counters)[user] - 1] else old(counters)
    {
      if user in counters { counters := counters[user := counters[user] - 1]; }
    }

    /** A whole visit leaves every count as it was, except that an uncapped visit takes one off a counter
        that already exists. */
    method Visit(user: int, max: int) returns (ok: bool)
      modifies this
      ensures forall u :: u != user ==> InFlight(u) == old(InFlight(u))
      ensures InFlight(user) == old(InFlight(user)) - if max <= 0 && user in old(counters) then 1 else 0
    {
      ok := TryAcquire(user, max);
      if ok { Release(user); }
    }
  }
}
