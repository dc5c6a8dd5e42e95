/** The gateway's per-address connection limit: a count per address, raised on accept and lowered
    when the connection's own loop ends, each under the table's lock. */
module Admission {

  class ConnectionCounts {
    const limit: nat
    var counts: map<string, nat>
    // the addresses of the admitted connections not yet released
    ghost var open: multiset<string>

    ghost predicate Valid()
      reads this
    {
      forall ip :: open[ip] <= limit && Entry(ip) == open[ip] && (ip in counts <==> open[ip] > 0)
    }

    ghost function Entry(ip: string): nat
      reads this
    {
      if ip in counts then counts[ip] else 0
    }

    constructor (limit: nat)
      ensures Valid() && this.limit == limit && open == multiset{}
    {
      this.limit := limit;
      counts, open := map[], multiset{};
    }

    /** Admits a connection exactly when fewer than the limit are open from its address. */
    method Accept(ip: string) returns (accepted: bool)
      requires Valid()
      modifies this
      ensures Valid() && (accepted <==> old(open)[ip] < limit)
      ensures open == if accepted then old(open) + multiset{ip} else old(open)
    {
      assert Entry(ip) == open[ip];
      var current := if ip in counts then counts[ip] else 0;
      if current >= limit {
        return false;
      }
      counts := counts[ip := current + 1];
      open := open + multiset{ip};
      return true;
    }

    /** Ends one connection from an address; without one there, nothing changes. */
    method Release(ip: string)
      requires Valid()
      modifies this
      ensures Valid() && open == old(open) - multiset{ip}
    {
      assert Entry(ip) == open[ip];
      if ip in counts {
        if counts[ip] <= 1 {
          counts := counts - {ip};
        } else {
          counts := counts[ip := counts[ip] - 1];
        }
      }
      open := open - multiset{ip};
    }
  }
}
