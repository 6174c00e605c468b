/** The client-address pins of classes/sticky_ip.py: one bounded map shared by every pool. */
module StickyIp {
  import opened Sequences
  import opened InsertionDict
  import opened Identities
  import opened StickySession

  type Pins = Dict<Ip, Server>

  function PinTo(pins: Pins, ip: Ip, backend: Server, cap: Positive): (pins': Pins)
    requires pins.Valid()
    ensures pins'.Valid()
    ensures |pins.order| <= cap ==> |pins'.order| <= cap
  {
    (if ip in pins.at then pins else pins.MakeRoom(cap)).Put(ip, backend)
  }

  /** A pinned address gets its pin, whatever pool it asks for; others get the pool's next item. */
  function Route(pins: Pins, ip: Ip, pool: Pool, cap: Positive): (Option<Server>, Pool, Pins)
    requires pins.Valid()
  {
    if ip in pins.at then (Some(pins.at[ip]), pool, pins)
    else
      var (backend, pool') := pool.Advance();
      (backend, pool', if backend == None then pins else PinTo(pins, ip, backend.value, cap))
  }

  class StickyIP {
    var ipMap: Pins
    const maxEntries: Positive

    ghost predicate Valid()
      reads this
    {
      ipMap.Valid()
    }

    constructor (maxEntries: Positive)
      ensures Valid() && ipMap == Empty() && this.maxEntries == maxEntries
    {
      this.ipMap := Empty();
      this.maxEntries := maxEntries;
    }

    method Pin(ip: Ip, backend: Server)
      requires Valid()
      modifies this
      ensures Valid() && ipMap == PinTo(old(ipMap), ip, backend, maxEntries)
    {
      if ip !in ipMap.at && |ipMap.order| >= maxEntries {
        var evicted := ipMap.order[0];
        DropFirst(ipMap.order);
        ipMap := ipMap.Remove(evicted);
      }
      ipMap := ipMap.Put(ip, backend);
    }

    method GetNext(ip: Ip, rr: StickyRoundRobin) returns (backend: Option<Server>)
      requires Valid() && rr.Valid()
      modifies this, rr, rr.rr
      ensures Valid() && rr.Valid()
      ensures (backend, rr.State(), ipMap) == Route(old(ipMap), ip, old(rr.State()), maxEntries)
    {
      if ip in ipMap.at {
        return Some(ipMap.at[ip]);
      }
      backend := rr.GetNext(None);
      if backend != None {
        Pin(ip, backend.value);
      }
    }

    method GetPinned(ip: Ip) returns (backend: Option<Server>)
      ensures backend == ipMap.Get(ip)
    {
      backend := if ip in ipMap.at then Some(ipMap.at[ip]) else None;
    }

    method Release(ip: Ip)
      requires Valid()
      modifies this
      ensures Valid() && ipMap == if ip in old(ipMap).at then old(ipMap).Remove(ip) else old(ipMap)
    {
      if ip in ipMap.at {
        ipMap := ipMap.Remove(ip);
      }
    }

    method DeleteBackend(backend: Server) returns (stale: set<Ip>)
      requires Valid()
      modifies this
      ensures Valid() && ipMap == old(ipMap).RemoveValue(backend) && stale == old(ipMap).KeysOf(backend)
    {
      var left;
      left, stale := ClearValue(ipMap, backend);
      ipMap := left;
    }

    method Clear()
      modifies this
      ensures Valid() && ipMap == Empty()
    {
      ipMap := Empty();
    }
  }

  /** The lookup that would re-route an address whose pin is not in the pool it asks for. */
  function CheckedRoute(pins: Pins, ip: Ip, pool: Pool): Option<Server> {
    if ip in pins.at && pins.at[ip] in pool.Members() then Some(pins.at[ip])
    else pool.Advance().0
  }

  /**
   * The map does not look at the pool. It answers like the checked lookup exactly
   * when the address has no pin or its pin is a member of the pool it asks for.
   */
  lemma RouteAgreesWithCheckedRoute(pins: Pins, ip: Ip, pool: Pool, cap: Positive)
    requires pins.Valid() && pool.Sound()
    ensures Route(pins, ip, pool, cap).0 == CheckedRoute(pins, ip, pool)
            <==> (ip in pins.at ==> pins.at[ip] in pool.Members())
  {
  }
}
