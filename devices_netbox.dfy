/**
 * The checking AdderNetbox (devices/netbox.py): `get_dia_ip_addrs` asks the
 * IPAM for the dia1 and dia2 addresses of the site's two WAN routers, gives
 * up on a router at its first failed lookup and goes on with the next, and
 * returns the addresses found with their masks cut off.
 */
module DevicesNetbox {
  import opened Ipam

  /** The addresses of the lookups among `queries` that found a record, in query order. */
  function FoundAddrs(queries: seq<Query>, lookup: Query -> Lookup): seq<string>
    decreases |queries|
  {
    if queries == [] then []
    else
      var found := match lookup(queries[|queries| - 1]) case Found(a) => [a] case _ => [];
      FoundAddrs(queries[..|queries| - 1], lookup) + found
  }

  /** Finding over two runs of queries is finding over the first, then over the second. */
  lemma {:induction false} FoundAddrsAppend(a: seq<Query>, b: seq<Query>, lookup: Query -> Lookup)
    ensures FoundAddrs(a + b, lookup) == FoundAddrs(a, lookup) + FoundAddrs(b, lookup)
    decreases |b|
  {
    if b == [] {
      assert a + b == a;
    } else {
      var n := |b|;
      assert (a + b)[..|a + b| - 1] == a + b[..n - 1];
      FoundAddrsAppend(a, b[..n - 1], lookup);
    }
  }

  /**
   * The addresses the try block appends for one router: dia1's, then dia2's;
   * a failed lookup ends the router, keeping what was already appended.
   */
  function RouterAddrs(device: string, lookup: Query -> Lookup): (addrs: seq<string>)
    ensures |addrs| <= 2
  {
    match lookup(Query(device, Dia1))
    case Found(first) =>
      (match lookup(Query(device, Dia2))
       case Found(second) => [first, second]
       case _ => [first])
    case _ => []
  }

  /** The queries the try block makes for one router: dia2 is asked only after dia1 was found. */
  function RouterQueries(device: string, lookup: Query -> Lookup): seq<Query>
  {
    [Query(device, Dia1)] + (if lookup(Query(device, Dia1)).Found? then [Query(device, Dia2)] else [])
  }

  /** The masked addresses collected over a list of routers, router after router. */
  function Collected(devices: seq<string>, lookup: Query -> Lookup): (masked: seq<string>)
    ensures |masked| <= 2 * |devices|
    decreases |devices|
  {
    if devices == [] then []
    else Collected(devices[..|devices| - 1], lookup) + RouterAddrs(devices[|devices| - 1], lookup)
  }

  /** The queries made over a list of routers, router after router. */
  function Asked(devices: seq<string>, lookup: Query -> Lookup): seq<Query>
    decreases |devices|
  {
    if devices == [] then []
    else Asked(devices[..|devices| - 1], lookup) + RouterQueries(devices[|devices| - 1], lookup)
  }

  /**
   * get_dia_ip_addrs: the lookups it makes, router by router and dia1 before
   * dia2, and the addresses they found, in that order, with their masks cut
   * off. A failed lookup is never raised to the caller.
   */
  method GetDiaIpAddrs(siteCode: string, lookup: Query -> Lookup) returns (diaIps: seq<string>, ghost asked: seq<Query>)
    ensures asked == Asked(RouterNames(siteCode), lookup)
    ensures diaIps == StripMasks(Collected(RouterNames(siteCode), lookup))
  {
    var devices := RouterNames(siteCode);
    var diaIpsMasked: seq<string> := [];
    asked := [];
    for i := 0 to |devices|
      invariant diaIpsMasked == Collected(devices[..i], lookup)
      invariant asked == Asked(devices[..i], lookup)
    {
      var device := devices[i];
      var dia1 := lookup(Query(device, Dia1));
      asked := asked + [Query(device, Dia1)];
      if dia1.Found? {
        diaIpsMasked := diaIpsMasked + [dia1.address];
        var dia2 := lookup(Query(device, Dia2));
        asked := asked + [Query(device, Dia2)];
        if dia2.Found? {
          diaIpsMasked := diaIpsMasked + [dia2.address];
        }
      }
      assert devices[..i + 1][..i] == devices[..i];
    }
    assert devices[..|devices|] == devices;
    diaIps := StripMasks(diaIpsMasked);
  }

  /** The site's routers are handled apart: what one router gives does not depend on the other's lookups failing. */
  lemma {:induction false} CollectedPerRouter(siteCode: string, lookup: Query -> Lookup)
    ensures Collected(RouterNames(siteCode), lookup)
      == RouterAddrs(siteCode + "-wr-1", lookup) + RouterAddrs(siteCode + "-wr-2", lookup)
    ensures Asked(RouterNames(siteCode), lookup)
      == RouterQueries(siteCode + "-wr-1", lookup) + RouterQueries(siteCode + "-wr-2", lookup)
  {
    var devices := RouterNames(siteCode);
    assert devices[..1] == [siteCode + "-wr-1"];
    assert devices[..1][..0] == [];
    assert Asked(devices[..1], lookup) == [] + RouterQueries(siteCode + "-wr-1", lookup);
  }

  /** Only the site's two routers are asked about, wr-1 first, and dia1 of each is always asked. */
  lemma {:induction false} AskedRouters(siteCode: string, lookup: Query -> Lookup)
    ensures var asked := Asked(RouterNames(siteCode), lookup);
      && 2 <= |asked| <= 4
      && asked[0] == Query(siteCode + "-wr-1", Dia1)
      && Query(siteCode + "-wr-2", Dia1) in asked
      && forall q :: q in asked ==> q.device in RouterNames(siteCode) && (q.iface == Dia1 || q.iface == Dia2)
  {
    CollectedPerRouter(siteCode, lookup);
  }

  /** At most four addresses come back, one per lookup that found a record. */
  lemma {:induction false} AtMostFour(siteCode: string, lookup: Query -> Lookup)
    ensures |StripMasks(Collected(RouterNames(siteCode), lookup))| <= 4
  {
    CollectedPerRouter(siteCode, lookup);
  }

  /** When every lookup finds a record, the four addresses come back in lookup order: wr-1 dia1, wr-1 dia2, wr-2 dia1, wr-2 dia2. */
  lemma {:induction false} AllFoundInOrder(siteCode: string, lookup: Query -> Lookup, a11: string, a12: string, a21: string, a22: string)
    requires lookup(Query(siteCode + "-wr-1", Dia1)) == Found(a11)
    requires lookup(Query(siteCode + "-wr-1", Dia2)) == Found(a12)
    requires lookup(Query(siteCode + "-wr-2", Dia1)) == Found(a21)
    requires lookup(Query(siteCode + "-wr-2", Dia2)) == Found(a22)
    ensures StripMasks(Collected(RouterNames(siteCode), lookup))
      == [StripMask(a11), StripMask(a12), StripMask(a21), StripMask(a22)]
  {
    CollectedPerRouter(siteCode, lookup);
  }

  /** A router's addresses are those of its lookups that found a record, in lookup order: dia1's, then dia2's. */
  lemma {:induction false} RouterAddrsFound(device: string, lookup: Query -> Lookup)
    ensures RouterAddrs(device, lookup) == FoundAddrs(RouterQueries(device, lookup), lookup)
  {
    var one, two := Query(device, Dia1), Query(device, Dia2);
    assert FoundAddrs([one], lookup) == FoundAddrs([], lookup) + (match lookup(one) case Found(a) => [a] case _ => []);
    assert [one, two][..1] == [one];
  }

  /** The addresses collected over the routers are exactly those of the lookups made that found a record, in lookup order. */
  lemma {:induction false} CollectedIsFound(devices: seq<string>, lookup: Query -> Lookup)
    ensures Collected(devices, lookup) == FoundAddrs(Asked(devices, lookup), lookup)
    decreases |devices|
  {
    if devices != [] {
      var init, last := devices[..|devices| - 1], devices[|devices| - 1];
      CollectedIsFound(init, lookup);
      RouterAddrsFound(last, lookup);
      FoundAddrsAppend(Asked(init, lookup), RouterQueries(last, lookup), lookup);
    }
  }

  /** Both lookups of a router finding a record keep both addresses, dia1's first. */
  lemma BothFoundKeepsBoth(device: string, lookup: Query -> Lookup)
    requires lookup(Query(device, Dia1)).Found? && lookup(Query(device, Dia2)).Found?
    ensures RouterAddrs(device, lookup) == [lookup(Query(device, Dia1)).address, lookup(Query(device, Dia2)).address]
    ensures RouterQueries(device, lookup) == [Query(device, Dia1), Query(device, Dia2)]
  {
  }

  /** A failed dia2 lookup keeps the router's dia1 address. */
  lemma Dia2FailureKeepsDia1(device: string, lookup: Query -> Lookup)
    requires lookup(Query(device, Dia1)).Found? && !lookup(Query(device, Dia2)).Found?
    ensures RouterAddrs(device, lookup) == [lookup(Query(device, Dia1)).address]
    ensures RouterQueries(device, lookup) == [Query(device, Dia1), Query(device, Dia2)]
  {
  }

  /** A failed dia1 lookup skips the router: nothing is kept for it and its dia2 is not asked for. */
  lemma Dia1FailureSkipsRouter(device: string, lookup: Query -> Lookup)
    requires !lookup(Query(device, Dia1)).Found?
    ensures RouterAddrs(device, lookup) == []
    ensures RouterQueries(device, lookup) == [Query(device, Dia1)]
  {
  }
}
