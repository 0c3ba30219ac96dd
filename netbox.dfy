/**
 * The unchecked AdderNetbox (netbox.py): `get_dia_ip_addrs` asks the IPAM for
 * the dia1 and dia2 addresses of the site's two WAN routers and returns them
 * with their masks cut off; the first failed lookup is raised to the caller
 * and no partial list comes back.
 */
module Netbox {
  import opened Wrappers
  import opened Ipam

  /** What escapes a failed lookup: AttributeError when there is no record, RequestError when the request failed. */
  datatype LookupError = AttributeError(query: Query) | RequestError(query: Query)

  /** The exception a failed lookup raises. */
  function RaisedBy(query: Query, found: Lookup): LookupError
    requires !found.Found?
  {
    if found.Absent? then AttributeError(query) else RequestError(query)
  }

  /** The queries made when every lookup succeeds: dia1 then dia2 of each router in turn. */
  function DiaQueries(devices: seq<string>): (queries: seq<Query>)
    ensures |queries| == 2 * |devices|
    decreases |devices|
  {
    if devices == [] then []
    else DiaQueries(devices[..|devices| - 1]) + [Query(devices[|devices| - 1], Dia1), Query(devices[|devices| - 1], Dia2)]
  }

  /** The position of the first query whose lookup fails, if any. */
  function FirstMiss(queries: seq<Query>, lookup: Query -> Lookup): (k: Option<nat>)
    ensures k.None? <==> forall i :: 0 <= i < |queries| ==> lookup(queries[i]).Found?
    ensures k.Some? ==> k.value < |queries| && !lookup(queries[k.value]).Found?
    ensures k.Some? ==> forall i :: 0 <= i < k.value ==> lookup(queries[i]).Found?
    decreases |queries|
  {
    if queries == [] then None
    else if !lookup(queries[0]).Found? then Some(0)
    else match FirstMiss(queries[1..], lookup)
      case None => None
      case Some(k) => Some(k + 1)
  }

  /** The outcome of making the queries in turn: every address, or the exception of the first failed lookup. */
  function Fetched(queries: seq<Query>, lookup: Query -> Lookup): Result<seq<string>, LookupError>
  {
    match FirstMiss(queries, lookup)
    case Some(k) => Err(RaisedBy(queries[k], lookup(queries[k])))
    case None => Ok(seq(|queries|, i requires 0 <= i < |queries| => lookup(queries[i]).address))
  }

  /** The queries actually made: all of them, or up to and including the first that fails. */
  function AskedUntilMiss(queries: seq<Query>, lookup: Query -> Lookup): seq<Query>
  {
    match FirstMiss(queries, lookup)
    case Some(k) => queries[..k + 1]
    case None => queries
  }

  /** The queries for a prefix of the routers come first among the queries for all of them. */
  lemma {:induction false} DiaQueriesPrefix(devices: seq<string>, i: nat)
    requires i <= |devices|
    ensures DiaQueries(devices[..i]) <= DiaQueries(devices)
    decreases |devices|
  {
    if i < |devices| {
      var n := |devices|;
      assert devices[..n - 1][..i] == devices[..i];
      DiaQueriesPrefix(devices[..n - 1], i);
    } else {
      assert devices[..i] == devices;
    }
  }

  /** Router i is asked about in places 2i (dia1) and 2i + 1 (dia2). */
  lemma {:induction false} DiaQueriesAt(devices: seq<string>, i: nat)
    requires i < |devices|
    ensures DiaQueries(devices)[2 * i] == Query(devices[i], Dia1)
    ensures DiaQueries(devices)[2 * i + 1] == Query(devices[i], Dia2)
  {
    DiaQueriesPrefix(devices, i + 1);
    assert devices[..i + 1][..i] == devices[..i];
    assert devices[..i + 1][i] == devices[i];
  }

  /** What get_dia_ip_addrs gives for the queries: the addresses with their masks cut off, or the first failure's exception. */
  function Outcome(queries: seq<Query>, lookup: Query -> Lookup): Result<seq<string>, LookupError>
  {
    match Fetched(queries, lookup)
    case Ok(masked) => Ok(StripMasks(masked))
    case Err(e) => Err(e)
  }

  /** A failed lookup after successful ones is the first miss: the queries up to it are those made, and its exception is raised. */
  lemma FirstMissAt(queries: seq<Query>, lookup: Query -> Lookup, p: nat)
    requires p < |queries| && !lookup(queries[p]).Found?
    requires forall j :: 0 <= j < p ==> lookup(queries[j]).Found?
    ensures FirstMiss(queries, lookup) == Some(p)
    ensures AskedUntilMiss(queries, lookup) == queries[..p + 1]
    ensures Outcome(queries, lookup) == Err(RaisedBy(queries[p], lookup(queries[p])))
  {
  }

  /** When every lookup succeeds, all queries are made and every address comes back, stripped. */
  lemma NoMiss(queries: seq<Query>, lookup: Query -> Lookup, masked: seq<string>)
    requires forall j :: 0 <= j < |queries| ==> lookup(queries[j]).Found?
    requires |masked| == |queries|
    requires forall j :: 0 <= j < |queries| ==> masked[j] == lookup(queries[j]).address
    ensures AskedUntilMiss(queries, lookup) == queries
    ensures Outcome(queries, lookup) == Ok(StripMasks(masked))
  {
    assert Fetched(queries, lookup).value == masked;
  }

  /**
   * get_dia_ip_addrs: the lookups made, dia1 before dia2 for wr-1 then wr-2,
   * stopping at the first that fails; the four addresses with their masks
   * cut off, or the exception of that first failure.
   */
  method GetDiaIpAddrs(siteCode: string, lookup: Query -> Lookup)
    returns (res: Result<seq<string>, LookupError>, ghost asked: seq<Query>)
    ensures asked == AskedUntilMiss(DiaQueries(RouterNames(siteCode)), lookup)
    ensures res == Outcome(DiaQueries(RouterNames(siteCode)), lookup)
  {
    var devices := RouterNames(siteCode);
    ghost var all := DiaQueries(devices);
    var diaIpsMasked: seq<string> := [];
    asked := [];
    for i := 0 to |devices|
      invariant asked == all[..2 * i]
      invariant forall j :: 0 <= j < 2 * i ==> lookup(all[j]).Found?
      invariant |diaIpsMasked| == 2 * i
      invariant forall j :: 0 <= j < 2 * i ==> diaIpsMasked[j] == lookup(all[j]).address
    {
      var device := devices[i];
      DiaQueriesAt(devices, i);
      var dia1 := lookup(Query(device, Dia1));
      asked := asked + [Query(device, Dia1)];
      assert asked == all[..2 * i + 1];
      if !dia1.Found? {
        FirstMissAt(all, lookup, 2 * i);
        return Err(RaisedBy(Query(device, Dia1), dia1)), asked;
      }
      diaIpsMasked := diaIpsMasked + [dia1.address];
      var dia2 := lookup(Query(device, Dia2));
      asked := asked + [Query(device, Dia2)];
      assert asked == all[..2 * i + 2];
      if !dia2.Found? {
        FirstMissAt(all, lookup, 2 * i + 1);
        return Err(RaisedBy(Query(device, Dia2), dia2)), asked;
      }
      diaIpsMasked := diaIpsMasked + [dia2.address];
    }
    assert asked == all;
    NoMiss(all, lookup, diaIpsMasked);
    res := Ok(StripMasks(diaIpsMasked));
  }

  /** The queries for a site: dia1 then dia2 of wr-1, then dia1 then dia2 of wr-2. */
  lemma {:induction false} SiteQueries(siteCode: string)
    ensures DiaQueries(RouterNames(siteCode)) == [
      Query(siteCode + "-wr-1", Dia1), Query(siteCode + "-wr-1", Dia2),
      Query(siteCode + "-wr-2", Dia1), Query(siteCode + "-wr-2", Dia2)]
  {
    var devices := RouterNames(siteCode);
    assert devices[..1] == [siteCode + "-wr-1"];
    assert devices[..1][..0] == [];
  }

  /**
   * All or nothing: a list comes back exactly when all four lookups find a
   * record, and then it holds the four addresses in lookup order.
   */
  lemma {:induction false} AllOrNothing(siteCode: string, lookup: Query -> Lookup)
    ensures var r := Fetched(DiaQueries(RouterNames(siteCode)), lookup);
      && (r.Ok? <==>
            && lookup(Query(siteCode + "-wr-1", Dia1)).Found? && lookup(Query(siteCode + "-wr-1", Dia2)).Found?
            && lookup(Query(siteCode + "-wr-2", Dia1)).Found? && lookup(Query(siteCode + "-wr-2", Dia2)).Found?)
      && (r.Ok? ==> r.value == [
            lookup(Query(siteCode + "-wr-1", Dia1)).address, lookup(Query(siteCode + "-wr-1", Dia2)).address,
            lookup(Query(siteCode + "-wr-2", Dia1)).address, lookup(Query(siteCode + "-wr-2", Dia2)).address])
  {
    var queries := DiaQueries(RouterNames(siteCode));
    SiteQueries(siteCode);
    if FirstMiss(queries, lookup).None? {
      assert lookup(queries[0]).Found? && lookup(queries[1]).Found? && lookup(queries[2]).Found? && lookup(queries[3]).Found?;
    } else {
      var k := FirstMiss(queries, lookup).value;
      assert !lookup(queries[k]).Found?;
    }
  }

  /** A failure raises the exception of the first failed lookup, and that lookup is the last one made. */
  lemma {:induction false} FailureStopsAtFirstMiss(queries: seq<Query>, lookup: Query -> Lookup)
    requires Fetched(queries, lookup).Err?
    ensures var asked := AskedUntilMiss(queries, lookup);
      && asked != [] && asked <= queries
      && (forall i :: 0 <= i < |asked| - 1 ==> lookup(asked[i]).Found?)
      && !lookup(asked[|asked| - 1]).Found?
      && Fetched(queries, lookup).error == RaisedBy(asked[|asked| - 1], lookup(asked[|asked| - 1]))
  {
    var k := FirstMiss(queries, lookup).value;
    assert AskedUntilMiss(queries, lookup)[k] == queries[k];
  }
}
