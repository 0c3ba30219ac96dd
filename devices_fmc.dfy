/**
 * The checking firewall-management client (devices/fmc.py). Every request
 * goes through get/post/put, which attach the auth header and raise
 * StatusCodeError on any status outside 200-299. On top of them: the name
 * index of all network addresses, host creation guarded by an inventory
 * check, name searches, group updates with a backup, and deployment to one
 * named device.
 *
 * Each state-changing method is specified by a Plan: the requests and backup
 * writes it performs, in order, and how it ends. The method promises that its
 * trace grows by exactly those steps, that the token tracker moves as those
 * requests make it, and that it returns the plan's result.
 */
module DevicesFmc {
  import opened Wrappers
  import opened Api
  import opened Session
  import opened Paging
  import opened Groups
  import Utils

  const DeploymentDescription := "Deployment initiated by API with Adder"

  class AdderFmc {
    const host: string
    const authToken: string
    const refreshToken: string
    const domainUuid: string
    /** The instant (in seconds) after which the access token is taken to be expired. */
    var tokenExpire: int
    const dfwFtd: string
    const ordFtd: string
    const uriBase: string
    /** What the client has done to the world, in order: each request sent, each backup file written. */
    ghost var trace: seq<Step>

    function Credentials(): Tokens
    {
      Tokens(authToken, refreshToken)
    }

    /** The trace grew by exactly `steps`, and the token tracker moved as those steps' requests make it. */
    twostate predicate Did(steps: seq<Step>, now: int)
      reads this
    {
      && trace == old(trace) + steps
      && tokenExpire == Advance(steps, old(tokenExpire), now)
    }

    /** Since the trace was `t0` and the tracked expiry `e0`, exactly `steps` were taken. */
    ghost predicate Since(t0: seq<Step>, e0: int, steps: seq<Step>, now: int)
      reads this
    {
      && trace == t0 + steps
      && tokenExpire == Advance(steps, e0, now)
    }

    /**
     * A session opened at `now` with the tokens and domain the controller
     * issued; the token is taken to be good for the next thirty minutes.
     */
    constructor (host: string, tokens: Tokens, domainUuid: string, dfwFtd: string, ordFtd: string, now: int)
      ensures this.host == host && authToken == tokens.access && refreshToken == tokens.refresh
      ensures this.domainUuid == domainUuid && this.dfwFtd == dfwFtd && this.ordFtd == ordFtd
      ensures tokenExpire == now + TokenLifetime
      ensures uriBase == DomainBase(domainUuid)
      ensures trace == []
    {
      this.host := host;
      authToken := tokens.access;
      refreshToken := tokens.refresh;
      this.domainUuid := domainUuid;
      tokenExpire := now + TokenLifetime;
      this.dfwFtd := dfwFtd;
      this.ordFtd := ordFtd;
      uriBase := DomainBase(domainUuid);
      trace := [];
    }

    /** The access token, with the refresh token when the tracked expiry has passed; then the expiry is pushed thirty minutes past `now`. */
    method GetAuthHeader(now: int) returns (header: AuthHeader)
      modifies this`tokenExpire
      ensures header == HeaderAt(Credentials(), old(tokenExpire), now)
      ensures tokenExpire == ExpireAfter(old(tokenExpire), now)
      ensures header.AccessAndRefresh? <==> old(tokenExpire) < now
      ensures now <= tokenExpire
    {
      if tokenExpire < now {
        tokenExpire := now + TokenLifetime;
        header := AccessAndRefresh(authToken, refreshToken);
      } else {
        header := AccessOnly(authToken);
      }
    }

    /** The request URL: the override when one is given, else the host followed by the path. */
    function Target(uri: string, url: Option<string>): string
    {
      if url.Some? then url.value else host + uri
    }

    /** One checked GET: the request is sent with the current header, and any status outside 200-299 raises. */
    method Get<T>(uri: string, server: Call -> Response<T>, now: int,
                  payload: seq<Param> := [], url: Option<string> := None, body: Body := NoBody)
      returns (res: Result<Response<T>, Error>)
      modifies this`tokenExpire, this`trace
      ensures Did([Request(Call(GET, Target(uri, url), payload, body))], now)
      ensures res == Checked(server(Call(GET, Target(uri, url), payload, body)))
    {
      var call := Call(GET, Target(uri, url), payload, body);
      var header := GetAuthHeader(now);
      trace := trace + [Request(call)];
      assert [Request(call)][0].Request?;
      res := Checked(server(call));
    }

    /** One checked POST of `body`. */
    method Post<T>(uri: string, body: Body, server: Call -> Response<T>, now: int,
                   payload: seq<Param> := [], url: Option<string> := None)
      returns (res: Result<Response<T>, Error>)
      modifies this`tokenExpire, this`trace
      ensures Did([Request(Call(POST, Target(uri, url), payload, body))], now)
      ensures res == Checked(server(Call(POST, Target(uri, url), payload, body)))
    {
      var call := Call(POST, Target(uri, url), payload, body);
      var header := GetAuthHeader(now);
      trace := trace + [Request(call)];
      assert [Request(call)][0].Request?;
      res := Checked(server(call));
    }

    /** One checked PUT of `body`. */
    method Put<T>(uri: string, body: Body, server: Call -> Response<T>, now: int,
                  payload: seq<Param> := [], url: Option<string> := None)
      returns (res: Result<Response<T>, Error>)
      modifies this`tokenExpire, this`trace
      ensures Did([Request(Call(PUT, Target(uri, url), payload, body))], now)
      ensures res == Checked(server(Call(PUT, Target(uri, url), payload, body)))
    {
      var call := Call(PUT, Target(uri, url), payload, body);
      var header := GetAuthHeader(now);
      trace := trace + [Request(call)];
      assert [Request(call)][0].Request?;
      res := Checked(server(call));
    }

    // -------------------------------------------------------------------------
    // Paths and first requests
    // -------------------------------------------------------------------------

    function AddressesUri(): string { uriBase + "/object/networkaddresses" }
    function HostsUri(): string { uriBase + "/object/hosts" }
    function HostUri(id: string): string { uriBase + "/object/hosts/" + id }
    function GroupsUri(): string { uriBase + "/object/networkgroups" }
    function GroupUri(id: string): string { uriBase + "/object/networkgroups/" + id }
    function DeployableUri(): string { uriBase + "/deployment/deployabledevices" }
    function DeploymentsUri(): string { uriBase + "/deployment/deploymentrequests" }

    /** The first page of the address listing: up to 1000 entries. */
    function AddressesCall(): Call
    {
      Call(GET, host + AddressesUri(), [Limit(1000)], NoBody)
    }

    /** The first page of the group listing, with no query parameters. */
    function GroupsCall(): Call
    {
      Call(GET, host + GroupsUri(), [], NoBody)
    }
    // -------------------------------------------------------------------------
    // The address inventory (get_all_hosts, check_host_exists)
    // -------------------------------------------------------------------------

    /** Fetches page n of an address listing: the request the loop sends for it, answered by that page. */
    method GetPage(server: Call -> Response<Page>, now: int, payload: seq<Param>, url: Option<string>,
                   ghost walk: seq<Response<Page>>, ghost n: nat, ghost t0: seq<Step>, ghost e0: int)
      returns (r: Result<Response<Page>, Error>)
      requires IsWalk(server, AddressesCall(), walk, true) && n < |walk|
      requires n == 0 ==> url == None && payload == [Limit(1000)]
      requires n > 0 ==> HasNext(walk[n - 1]) && url == Some(walk[n - 1].json.value.next.value) && payload == []
      requires Since(t0, e0, WalkSteps(AddressesCall(), walk[..n]), now)
      modifies this`tokenExpire, this`trace
      ensures Since(t0, e0, WalkSteps(AddressesCall(), walk[..n + 1]), now)
      ensures r == Checked(walk[n])
      ensures r.Ok? && r.value.json.Some? && r.value.json.value.next.Some? <==> n < |walk| - 1
    {
      ghost var before, request := WalkSteps(AddressesCall(), walk[..n]), Request(WalkCall(AddressesCall(), walk, n));
      r := Get(AddressesUri(), server, now, payload, url);
      WalkAt(server, AddressesCall(), walk, true, n);
      WalkStepsExtend(AddressesCall(), walk, n);
      AdvanceAppend(before, [request], e0, now);
      assert t0 + before + [request] == t0 + (before + [request]);
    }

    /**
     * Pages through every network address and maps each name to its UUID, the
     * last page carrying a name winning; a failed page ends the listing with
     * its error.
     */
    method GetAllHosts(server: Call -> Response<Page>, now: int, ghost walk: seq<Response<Page>>)
      returns (res: Result<map<string, string>, Error>)
      requires IsWalk(server, AddressesCall(), walk, true)
      modifies this`tokenExpire, this`trace
      ensures Did(WalkSteps(AddressesCall(), walk), now)
      ensures res == ListingResult(walk, true, ItemId)
    {
      var allHosts: map<string, string> := map[];
      var url: Option<string> := None;
      var payload: seq<Param> := [Limit(1000)];
      ghost var n: nat := 0;
      while true
        invariant n < |walk|
        invariant n == 0 ==> url == None && payload == [Limit(1000)]
        invariant n > 0 ==> HasNext(walk[n - 1]) && url == Some(walk[n - 1].json.value.next.value) && payload == []
        invariant allHosts == Index(Items(walk[..n]), ItemId)
        invariant Since(old(trace), old(tokenExpire), WalkSteps(AddressesCall(), walk[..n]), now)
        decreases |walk| - n
      {
        var r := GetPage(server, now, payload, url, walk, n, old(trace), old(tokenExpire));
        if r.Err? || r.value.json.None? {
          assert walk[..n + 1] == walk;
          if r.Err? {
            return Err(r.error);
          }
          return Err(Malformed("items"));
        }
        var response := r.value;
        allHosts := RecordPage(allHosts, response.json.value, ItemId, walk, n);
        n := n + 1;
        if response.json.value.next.Some? {
          url := Some(response.json.value.next.value);
          payload := [];
        } else {
          break;
        }
      }
      assert walk[..n] == walk;
      res := Ok(allHosts);
    }

    /** Whether `hostName` is new: the whole inventory is fetched and its names compared with it. */
    method CheckHostExists(hostName: string, server: Call -> Response<Page>, now: int, ghost walk: seq<Response<Page>>)
      returns (res: Result<bool, Error>)
      requires IsWalk(server, AddressesCall(), walk, true)
      modifies this`tokenExpire, this`trace
      ensures Did(WalkSteps(AddressesCall(), walk), now)
      ensures res == Verdict(ListingResult(walk, true, ItemId), hostName)
    {
      var allHosts := GetAllHosts(server, now, walk);
      if allHosts.Err? {
        return Err(allHosts.error);
      }
      if hostName in allHosts.value {
        return Err(HostAlreadyExists(hostName));
      }
      return Ok(true);
    }

    // -------------------------------------------------------------------------
    // Host creation (create_bulk_request_body, create_host_objects)
    // -------------------------------------------------------------------------

    /** The creation request: a bulk POST of every entry for several addresses, a plain POST of one entry for one. */
    function CreateCall(ipAddrs: seq<string>): Call
      requires |ipAddrs| > 0
    {
      if |ipAddrs| > 1 then Call(POST, host + HostsUri(), [Bulk(true)], Hosts(HostEntries(ipAddrs)))
      else Call(POST, host + HostsUri(), [], Host(HostEntryFor(ipAddrs[0])))
    }

    /**
     * The existence checks of create_host_objects: one full inventory listing
     * per address, in order, until an address is found to exist.
     */
    ghost function ChecksPlan(ipAddrs: seq<string>, walk: seq<Response<Page>>): Plan<bool>
      requires |walk| > 0 && forall i :: 0 <= i < |walk| - 1 ==> HasNext(walk[i])
    {
      var inventory := ListingResult(walk, true, ItemId);
      Plan(Repeat(WalkSteps(AddressesCall(), walk), ChecksRun(ipAddrs, inventory)), ChecksOutcome(ipAddrs, inventory))
    }

    /** Runs check_host_exists on every address in order, stopping at the first failure. */
    method CheckAddresses(ipAddrs: seq<string>, server: Call -> Response<Page>, now: int, ghost walk: seq<Response<Page>>)
      returns (res: Result<bool, Error>)
      requires IsWalk(server, AddressesCall(), walk, true)
      modifies this`tokenExpire, this`trace
      ensures Did(ChecksPlan(ipAddrs, walk).steps, now)
      ensures res == ChecksPlan(ipAddrs, walk).result
    {
      ghost var scan := WalkSteps(AddressesCall(), walk);
      ghost var inventory := ListingResult(walk, true, ItemId);
      for i := 0 to |ipAddrs|
        invariant Did(Repeat(scan, i), now)
        invariant i > 0 ==> inventory.Ok? && forall j :: 0 <= j < i ==> ipAddrs[j] !in inventory.value
      {
        ghost var before := Repeat(scan, i);
        var check := CheckHostExists(ipAddrs[i], server, now, walk);
        AdvanceAppend(before, scan, old(tokenExpire), now);
        assert Repeat(scan, i + 1) == before + scan;
        assert old(trace) + before + scan == old(trace) + (before + scan);
        if check.Err? {
          ChecksStopAt(ipAddrs, inventory, i);
          return Err(check.error);
        }
        PassedOne(ipAddrs, inventory, i);
      }
      ChecksPass(ipAddrs, inventory);
      return Ok(true);
    }

    /**
     * What create_host_objects does: the existence checks; if every address
     * is new, one creation request; and the references the controller
     * returns.
     */
    ghost function CreatePlan(ipAddrs: seq<string>, server: Controller, walk: seq<Response<Page>>): Plan<seq<ObjRef>>
      requires |walk| > 0 && forall i :: 0 <= i < |walk| - 1 ==> HasNext(walk[i])
    {
      var checks := ChecksPlan(ipAddrs, walk);
      if checks.result.Err? then Plan(checks.steps, Err(checks.result.error))
      else if |ipAddrs| == 0 then Plan(checks.steps, Err(IndexError))
      else
        var post := CreateCall(ipAddrs);
        Plan(checks.steps + [Request(post)], CreatedRefs(|ipAddrs|, server.created(post)))
    }

    /**
     * Creates a host object per address after checking, address by address,
     * that no object of that name exists; returns the name, id and type of
     * each created object.
     */
    method CreateHostObjects(ipAddrs: seq<string>, server: Controller, now: int, ghost walk: seq<Response<Page>>)
      returns (res: Result<seq<ObjRef>, Error>)
      requires IsWalk(server.pages, AddressesCall(), walk, true)
      modifies this`tokenExpire, this`trace
      ensures Did(CreatePlan(ipAddrs, server, walk).steps, now)
      ensures res == CreatePlan(ipAddrs, server, walk).result
    {
      var flag := |ipAddrs|;
      var checked := CheckAddresses(ipAddrs, server.pages, now, walk);
      if checked.Err? {
        return Err(checked.error);
      }
      if |ipAddrs| == 0 {
        return Err(IndexError);
      }
      ghost var checks := ChecksPlan(ipAddrs, walk).steps;
      ghost var post := CreateCall(ipAddrs);
      var r: Result<Response<CreateReply>, Error>;
      if |ipAddrs| > 1 {
        var multiBody := CreateBulkRequestBody(ipAddrs);
        r := Post(HostsUri(), Hosts(multiBody), server.created, now, [Bulk(true)]);
      } else {
        var singleBody := HostEntry(ipAddrs[0], ipAddrs[0], HostDescription, "Host");
        r := Post(HostsUri(), Host(singleBody), server.created, now);
      }
      AdvanceAppend(checks, [Request(post)], old(tokenExpire), now);
      if r.Err? {
        return Err(r.error);
      }
      var reply := r.value.json;
      if reply.None? {
        return Err(NotJson);
      }
      var newObjects: seq<ObjRef> := [];
      if flag > 1 {
        if reply.value.items.None? {
          return Err(Malformed("items"));
        }
        newObjects := reply.value.items.value;
      } else if flag == 1 {
        if reply.value.single.None? {
          return Err(Malformed("name"));
        }
        newObjects := [reply.value.single.value];
      }
      return Ok(newObjects);
    }

    // -------------------------------------------------------------------------
    // Name searches (get_netgroup_uuid, get_netgroup_by_name, get_host_by_name)
    // -------------------------------------------------------------------------

    /** The request for one group: a GET of its path. */
    function GroupCall(id: string): Call
    {
      Call(GET, host + GroupUri(id), [], NoBody)
    }

    /** The request for one host: a GET of its path. */
    function HostCall(id: string): Call
    {
      Call(GET, host + HostUri(id), [], NoBody)
    }

    /** Fetches page n of a search that starts with a GET of `uri` carrying `first`. */
    method SearchPage(uri: string, first: seq<Param>, name: string, server: Call -> Response<Page>, now: int,
                      payload: seq<Param>, url: Option<string>, ghost walk: seq<Response<Page>>, ghost n: nat)
      returns (r: Result<Response<Page>, Error>)
      requires IsSearch(server, Call(GET, host + uri, first, NoBody), walk, name) && n < |walk|
      requires n == 0 ==> url == None && payload == first
      requires n > 0 ==> HasNext(walk[n - 1]) && url == Some(walk[n - 1].json.value.next.value) && payload == []
      modifies this`tokenExpire, this`trace
      ensures Did([Request(WalkCall(Call(GET, host + uri, first, NoBody), walk, n))], now)
      ensures r == Checked(walk[n])
      ensures SearchGoesOn(walk[n], name) <==> n < |walk| - 1
    {
      r := Get(uri, server, now, payload, url);
      SearchAt(server, Call(GET, host + uri, first, NoBody), walk, name, n);
    }

    /**
     * The search loop shared by the three lookups: page by page, the first item
     * carrying `name`; no page after the one holding it is requested, and the
     * search comes back empty only from a page without a next link.
     */
    method FindByName(uri: string, first: seq<Param>, name: string, server: Call -> Response<Page>, now: int,
                      ghost walk: seq<Response<Page>>)
      returns (res: Result<Option<Item>, Error>)
      requires IsSearch(server, Call(GET, host + uri, first, NoBody), walk, name)
      modifies this`tokenExpire, this`trace
      ensures Did(WalkSteps(Call(GET, host + uri, first, NoBody), walk), now)
      ensures res == SearchResult(walk, name)
    {
      ghost var start := Call(GET, host + uri, first, NoBody);
      var url: Option<string> := None;
      var payload := first;
      ghost var n: nat := 0;
      while true
        invariant n < |walk|
        invariant n == 0 ==> url == None && payload == first
        invariant n > 0 ==> HasNext(walk[n - 1]) && url == Some(walk[n - 1].json.value.next.value) && payload == []
        invariant Did(WalkSteps(start, walk[..n]), now)
        decreases |walk| - n
      {
        ghost var before := WalkSteps(start, walk[..n]);
        ghost var call := WalkCall(start, walk, n);
        var r := SearchPage(uri, first, name, server, now, payload, url, walk, n);
        WalkStepsExtend(start, walk, n);
        AdvanceAppend(before, [Request(call)], old(tokenExpire), now);
        if r.Err? || r.value.json.None? {
          assert walk[..n + 1] == walk;
          SearchOnLast(walk, name);
          if r.Err? {
            return Err(r.error);
          }
          return Err(Malformed("items"));
        }
        var page := r.value.json.value;
        var k := MatchOnPage(page.items, name);
        if k.Some? || page.next.None? {
          assert walk[..n + 1] == walk;
          SearchOnLast(walk, name);
          if k.Some? {
            return Ok(Some(page.items[k.value]));
          }
          return Ok(None);
        }
        url := Some(page.next.value);
        payload := [];
        n := n + 1;
      }
    }

    /** get_netgroup_uuid: the id of the first group named `name`, or None after the last page. */
    method GetNetgroupUuid(name: string, server: Call -> Response<Page>, now: int, ghost walk: seq<Response<Page>>)
      returns (res: Result<Option<string>, Error>)
      requires IsSearch(server, GroupsCall(), walk, name)
      modifies this`tokenExpire, this`trace
      ensures Did(WalkSteps(GroupsCall(), walk), now)
      ensures res == FoundId(SearchResult(walk, name))
    {
      var found := FindByName(GroupsUri(), [], name, server, now, walk);
      if found.Err? {
        return Err(found.error);
      }
      if found.value.None? {
        return Ok(None);
      }
      return Ok(Some(found.value.value.id));
    }

    /** get_netgroup_by_uuid: one checked GET of the group. */
    method GetNetgroupByUuid(netGrpId: string, server: Call -> Response<JsonObject>, now: int)
      returns (res: Result<Response<JsonObject>, Error>)
      modifies this`tokenExpire, this`trace
      ensures Did([Request(GroupCall(netGrpId))], now)
      ensures res == Checked(server(GroupCall(netGrpId)))
    {
      res := Get(GroupUri(netGrpId), server, now);
    }

    /** What get_netgroup_by_name does: the search, then a GET of the group found. */
    ghost function NetgroupPlan(name: string, server: Controller, walk: seq<Response<Page>>): Plan<Option<Response<JsonObject>>>
      requires |walk| > 0 && forall i :: 0 <= i < |walk| - 1 ==> HasNext(walk[i])
    {
      var scan := WalkSteps(GroupsCall(), walk);
      match SearchResult(walk, name)
      case Err(e) => Plan(scan, Err(e))
      case Ok(None) => Plan(scan, Ok(None))
      case Ok(Some(item)) =>
        Plan(scan + [Request(GroupCall(item.id))],
             match Checked(server.documents(GroupCall(item.id)))
             case Err(e) => Err(e)
             case Ok(r) => Ok(Some(r)))
    }

    /** get_netgroup_by_name: the group document of the first group named `name`, or None. */
    method GetNetgroupByName(name: string, server: Controller, now: int, ghost walk: seq<Response<Page>>)
      returns (res: Result<Option<Response<JsonObject>>, Error>)
      requires IsSearch(server.pages, GroupsCall(), walk, name)
      modifies this`tokenExpire, this`trace
      ensures Did(NetgroupPlan(name, server, walk).steps, now)
      ensures res == NetgroupPlan(name, server, walk).result
    {
      var found := FindByName(GroupsUri(), [], name, server.pages, now, walk);
      if found.Err? {
        return Err(found.error);
      }
      if found.value.None? {
        return Ok(None);
      }
      ghost var scan := WalkSteps(GroupsCall(), walk);
      var group := GetNetgroupByUuid(found.value.value.id, server.documents, now);
      AdvanceAppend(scan, [Request(GroupCall(found.value.value.id))], old(tokenExpire), now);
      if group.Err? {
        return Err(group.error);
      }
      return Ok(Some(group.value));
    }

    /** get_host_by_uuid: one checked GET of the host. */
    method GetHostByUuid(uuid: string, server: Call -> Response<JsonObject>, now: int)
      returns (res: Result<Response<JsonObject>, Error>)
      modifies this`tokenExpire, this`trace
      ensures Did([Request(HostCall(uuid))], now)
      ensures res == Checked(server(HostCall(uuid)))
    {
      res := Get(HostUri(uuid), server, now);
    }

    /**
     * What get_host_by_name does: a first checked GET of the address listing
     * whose answer is discarded, the search over the same listing, then a GET
     * of the host found; no match raises HostNotFound.
     */
    ghost function HostPlan(name: string, server: Controller, walk: seq<Response<Page>>): Plan<Response<JsonObject>>
      requires |walk| > 0 && forall i :: 0 <= i < |walk| - 1 ==> HasNext(walk[i])
    {
      var probe := [Request(AddressesCall())];
      match Checked(server.pages(AddressesCall()))
      case Err(e) => Plan(probe, Err(e))
      case Ok(_) =>
        var scan := probe + WalkSteps(AddressesCall(), walk);
        match SearchResult(walk, name)
        case Err(e) => Plan(scan, Err(e))
        case Ok(None) => Plan(scan, Err(HostNotFound(name)))
        case Ok(Some(item)) => Plan(scan + [Request(HostCall(item.id))], Checked(server.documents(HostCall(item.id))))
    }

    /** get_host_by_name: the host document of the first address object named `name`. */
    method GetHostByName(name: string, server: Controller, now: int, ghost walk: seq<Response<Page>>)
      returns (res: Result<Response<JsonObject>, Error>)
      requires IsSearch(server.pages, AddressesCall(), walk, name)
      modifies this`tokenExpire, this`trace
      ensures Did(HostPlan(name, server, walk).steps, now)
      ensures res == HostPlan(name, server, walk).result
    {
      var probe := Get(AddressesUri(), server.pages, now, [Limit(1000)]);
      if probe.Err? {
        return Err(probe.error);
      }
      ghost var probed := [Request(AddressesCall())];
      ghost var scan := WalkSteps(AddressesCall(), walk);
      var found := FindByName(AddressesUri(), [Limit(1000)], name, server.pages, now, walk);
      AdvanceAppend(probed, scan, old(tokenExpire), now);
      if found.Err? {
        return Err(found.error);
      }
      if found.value.None? {
        return Err(HostNotFound(name));
      }
      var hostDoc := GetHostByUuid(found.value.value.id, server.documents, now);
      AdvanceAppend(probed + scan, [Request(HostCall(found.value.value.id))], old(tokenExpire), now);
      return hostDoc;
    }

    // -------------------------------------------------------------------------
    // Group contents and updates (get_netgrp_ips, update_object_group,
    // update_group_from_existing_host)
    // -------------------------------------------------------------------------

    /** get_netgrp_ips: the object names, then the literal values, of a fetched group. */
    method GetNetgrpIps(networkGroupObject: Response<JsonObject>) returns (ipsInNetgrp: Result<seq<Json>, Error>)
      ensures networkGroupObject.json.None? ==> ipsInNetgrp == Err(NotJson)
      ensures networkGroupObject.json.Some? ==> ipsInNetgrp == GroupIps(networkGroupObject.json.value)
    {
      if networkGroupObject.json.None? {
        return Err(NotJson);
      }
      ipsInNetgrp := CollectIps(networkGroupObject.json.value);
    }

    /** The rewritten group: a PUT of `body` to the group's path. */
    function GroupPut(id: string, body: JsonObject): Call
    {
      Call(PUT, host + GroupUri(id), [], Document(body))
    }

    /**
     * What update_object_group does: a checked GET of the group; the backup
     * (the group plus its backup stamps) when the file could be written; then,
     * unless removing a server field or reaching "objects" fails, a checked PUT
     * of the merged body.
     */
    ghost function MergePlan(groupUuid: string, newObjects: seq<Json>, server: Controller,
                             timestamp: string, backupId: string, backupWritten: bool): Plan<Response<JsonObject>>
    {
      var get := [Request(GroupCall(groupUuid))];
      match Checked(server.documents(GroupCall(groupUuid)))
      case Err(e) => Plan(get, Err(e))
      case Ok(r) =>
        if r.json.None? then Plan(get, Err(NotJson))
        else
          var backup := if backupWritten then [Backup(BackupPath(backupId), WithBackupFields(r.json.value, timestamp, backupId))] else [];
          match MergedBody(r.json.value, newObjects)
          case Err(e) => Plan(get + backup, Err(e))
          case Ok(body) =>
            Plan(get + backup + [Request(GroupPut(groupUuid, body))], Checked(server.documents(GroupPut(groupUuid, body))))
    }

    /**
     * update_object_group: fetches the group, stamps it with the clock reading
     * and a fresh id, writes it to the backup file (a failed write is ignored),
     * strips the server fields and stamps, appends the new objects and writes
     * the group back.
     */
    method UpdateObjectGroup(groupUuid: string, newObjects: seq<Json>, server: Controller, now: int,
                             timestamp: string, backupId: string, backupWritten: bool)
      returns (res: Result<Response<JsonObject>, Error>)
      modifies this`tokenExpire, this`trace
      ensures Did(MergePlan(groupUuid, newObjects, server, timestamp, backupId, backupWritten).steps, now)
      ensures res == MergePlan(groupUuid, newObjects, server, timestamp, backupId, backupWritten).result
    {
      var fetched := GetNetgroupByUuid(groupUuid, server.documents, now);
      if fetched.Err? {
        return Err(fetched.error);
      }
      if fetched.value.json.None? {
        return Err(NotJson);
      }
      ghost var get := [Request(GroupCall(groupUuid))];
      var objGroup := fetched.value.json.value;
      ghost var doc := objGroup;
      objGroup := objGroup["backup_timestamp" := JStr(timestamp)];
      objGroup := objGroup["backup_uuid" := JStr(backupId)];
      assert objGroup == WithBackupFields(doc, timestamp, backupId);
      ghost var backup: seq<Step> := [];
      if backupWritten {
        backup := [Backup(BackupPath(backupId), objGroup)];
        trace := trace + backup;
      }
      AdvanceAppend(get, backup, old(tokenExpire), now);
      var merged := StripAndAppend(objGroup, newObjects, doc, timestamp, backupId);
      if merged.Err? {
        return Err(merged.error);
      }
      var r := Put(GroupUri(groupUuid), Document(merged.value), server.documents, now);
      AdvanceAppend(get + backup, [Request(GroupPut(groupUuid, merged.value))], old(tokenExpire), now);
      return r;
    }

    /**
     * The rest of update_object_group's rewriting of the stamped group: the
     * server fields and stamps are popped (a missing "metadata" or "links"
     * raises), then the new objects are appended to "objects".
     */
    static method StripAndAppend(objGroup: JsonObject, newObjects: seq<Json>, ghost doc: JsonObject, ghost timestamp: string, ghost backupId: string)
      returns (r: Result<JsonObject, Error>)
      requires objGroup == WithBackupFields(doc, timestamp, backupId)
      ensures r == MergedBody(doc, newObjects)
    {
      var group := objGroup;
      if "metadata" !in group {
        return Err(Malformed("metadata"));
      }
      group := group - {"metadata"};
      if "links" !in group {
        return Err(Malformed("links"));
      }
      group := group - {"links"};
      group := group - {"backup_timestamp"};
      group := group - {"backup_uuid"};
      StrippedStamps(doc, timestamp, backupId);
      r := AppendObjects(group, newObjects);
    }

    /**
     * What update_group_from_existing_host does: the host lookup, then a group
     * update appending that one host entry.
     */
    ghost function ExistingHostPlan(groupUuid: string, hostName: string, server: Controller, walk: seq<Response<Page>>,
                                    timestamp: string, backupId: string, backupWritten: bool): Plan<Response<JsonObject>>
      requires |walk| > 0 && forall i :: 0 <= i < |walk| - 1 ==> HasNext(walk[i])
    {
      var lookup := HostPlan(hostName, server, walk);
      match lookup.result
      case Err(e) => lookup
      case Ok(r) =>
        if r.json.None? then Plan(lookup.steps, Err(NotJson))
        else
          match ExistingHostEntry(r.json.value)
          case Err(e) => Plan(lookup.steps, Err(e))
          case Ok(entry) =>
            var merge := MergePlan(groupUuid, [entry], server, timestamp, backupId, backupWritten);
            Plan(lookup.steps + merge.steps, merge.result)
    }

    /** update_group_from_existing_host: adds the existing host named `hostName` to the group. */
    method UpdateGroupFromExistingHost(groupUuid: string, hostName: string, server: Controller, now: int,
                                       ghost walk: seq<Response<Page>>, timestamp: string, backupId: string, backupWritten: bool)
      returns (res: Result<Response<JsonObject>, Error>)
      requires IsSearch(server.pages, AddressesCall(), walk, hostName)
      modifies this`tokenExpire, this`trace
      ensures Did(ExistingHostPlan(groupUuid, hostName, server, walk, timestamp, backupId, backupWritten).steps, now)
      ensures res == ExistingHostPlan(groupUuid, hostName, server, walk, timestamp, backupId, backupWritten).result
    {
      var existing := GetHostByName(hostName, server, now, walk);
      if existing.Err? {
        return Err(existing.error);
      }
      if existing.value.json.None? {
        return Err(NotJson);
      }
      var existingHost := ExistingHostEntry(existing.value.json.value);
      if existingHost.Err? {
        return Err(existingHost.error);
      }
      ghost var lookup := HostPlan(hostName, server, walk).steps;
      res := UpdateObjectGroup(groupUuid, [existingHost.value], server, now, timestamp, backupId, backupWritten);
      AdvanceAppend(lookup, MergePlan(groupUuid, [existingHost.value], server, timestamp, backupId, backupWritten).steps, old(tokenExpire), now);
    }

    // -------------------------------------------------------------------------
    // Deployment (get_deployable_devices, deploy_to_device)
    // -------------------------------------------------------------------------

    /** The listing of devices with pending changes: expanded, up to 100 entries. */
    function DeployableCall(): Call
    {
      Call(GET, host + DeployableUri(), [Expanded(true), Limit(100)], NoBody)
    }

    /** The deployment request for one listed device. */
    function DeployCall(device: DeployableItem): Call
    {
      Call(POST, host + DeploymentsUri(), [], Deployment(DeploymentFor(device)))
    }

    /** get_deployable_devices: one checked GET of the deployable-device listing. */
    method GetDeployableDevices(server: Call -> Response<seq<DeployableItem>>, now: int)
      returns (res: Result<Response<seq<DeployableItem>>, Error>)
      modifies this`tokenExpire, this`trace
      ensures Did([Request(DeployableCall())], now)
      ensures res == Checked(server(DeployableCall()))
    {
      res := Get(DeployableUri(), server, now, [Expanded(true), Limit(100)]);
    }

    /**
     * What deploy_to_device does: the listing; then, for the first listed
     * device named `deviceName`, one checked deployment POST, and none when no
     * device has that name.
     */
    ghost function DeployPlan(deviceName: string, server: Controller): Plan<Response<JsonObject>>
    {
      var list := [Request(DeployableCall())];
      match Checked(server.deployable(DeployableCall()))
      case Err(e) => Plan(list, Err(e))
      case Ok(r) =>
        if r.json.None? then Plan(list, Err(Malformed("items")))
        else
          match FirstIndex(DeviceNames(r.json.value), deviceName)
          case None => Plan(list, Err(NotDeployable(deviceName)))
          case Some(k) =>
            var post := DeployCall(r.json.value[k]);
            Plan(list + [Request(post)], Checked(server.documents(post)))
    }

    /**
     * deploy_to_device: deploys the pending changes of the first listed device
     * named `deviceName`, with that device's version and id.
     */
    method DeployToDevice(deviceName: string, server: Controller, now: int)
      returns (res: Result<Response<JsonObject>, Error>)
      modifies this`tokenExpire, this`trace
      ensures Did(DeployPlan(deviceName, server).steps, now)
      ensures res == DeployPlan(deviceName, server).result
    {
      var body := DeploymentRequest("DeploymentRequest", None, true, true, Some(DeploymentDescription), []);
      var found := false;
      var deployableDevices := GetDeployableDevices(server.deployable, now);
      if deployableDevices.Err? {
        return Err(deployableDevices.error);
      }
      if deployableDevices.value.json.None? {
        return Err(Malformed("items"));
      }
      var devices := deployableDevices.value.json.value;
      ghost var chosen: nat := 0;
      for i := 0 to |devices|
        invariant !found
        invariant body == DeploymentRequest("DeploymentRequest", None, true, true, Some(DeploymentDescription), [])
        invariant forall j :: 0 <= j < i ==> devices[j].name != deviceName
      {
        if devices[i].name == deviceName {
          body := body.(version := Some(devices[i].version));
          body := body.(deviceList := body.deviceList + [devices[i].deviceId]);
          found := true;
          chosen := i;
          break;
        }
      }
      if found == false {
        assert deviceName !in DeviceNames(devices);
        return Err(NotDeployable(deviceName));
      }
      assert FirstIndex(DeviceNames(devices), deviceName) == Some(chosen);
      assert body == DeploymentFor(devices[chosen]);
      var r := Post(DeploymentsUri(), Deployment(body), server.documents, now);
      AdvanceAppend([Request(DeployableCall())], [Request(DeployCall(devices[chosen]))], old(tokenExpire), now);
      return r;
    }

    // -------------------------------------------------------------------------
    // What the plans promise
    // -------------------------------------------------------------------------

    /**
     * create_host_objects writes only after every address was checked against
     * the inventory and found new, and then writes once: its last step is the
     * creation request for all the addresses, and nothing before it writes.
     */
    lemma CreateWritesOnlyWhenAllNew(ipAddrs: seq<string>, server: Controller, walk: seq<Response<Page>>)
      requires IsWalk(server.pages, AddressesCall(), walk, true)
      ensures var plan := CreatePlan(ipAddrs, server, walk);
        var inventory := ListingResult(walk, true, ItemId);
        && (Writes(plan.steps) <==>
              |ipAddrs| > 0 && inventory.Ok? && forall j :: 0 <= j < |ipAddrs| ==> ipAddrs[j] !in inventory.value)
        && (Writes(plan.steps) ==>
              plan.steps[|plan.steps| - 1] == Request(CreateCall(ipAddrs)) && !Writes(plan.steps[..|plan.steps| - 1]))
    {
      var inventory := ListingResult(walk, true, ItemId);
      var checks := ChecksPlan(ipAddrs, walk);
      WalkReadOnly(AddressesCall(), walk);
      RepeatReadOnly(WalkSteps(AddressesCall(), walk), ChecksRun(ipAddrs, inventory));
      if |ipAddrs| > 0 {
        ChecksOkIffAllNew(ipAddrs, inventory);
        if checks.result.Ok? {
          var steps := checks.steps + [Request(CreateCall(ipAddrs))];
          assert steps[|steps| - 1].call.verb == POST;
          assert steps[..|steps| - 1] == checks.steps;
        }
      }
    }

    /**
     * After a failed check nothing is created: the error of the first address
     * found to exist (or of the listing) is returned and no request writes.
     */
    lemma CreateAbortsBeforeWrites(ipAddrs: seq<string>, server: Controller, walk: seq<Response<Page>>, i: nat)
      requires IsWalk(server.pages, AddressesCall(), walk, true)
      requires i < |ipAddrs| && ListingResult(walk, true, ItemId).Ok? && ipAddrs[i] in ListingResult(walk, true, ItemId).value
      ensures !Writes(CreatePlan(ipAddrs, server, walk).steps)
      ensures CreatePlan(ipAddrs, server, walk).result.Err?
      ensures CreatePlan(ipAddrs, server, walk).result.error.HostAlreadyExists?
    {
      var inventory := ListingResult(walk, true, ItemId);
      CreateWritesOnlyWhenAllNew(ipAddrs, server, walk);
      ChecksOkIffAllNew(ipAddrs, inventory);
    }

    /**
     * A single address, new to the inventory, comes back as the one object the
     * controller's reply describes.
     */
    lemma SingleCreateReturnsObject(addr: string, server: Controller, walk: seq<Response<Page>>)
      requires IsWalk(server.pages, AddressesCall(), walk, true)
      requires ListingResult(walk, true, ItemId).Ok? && addr !in ListingResult(walk, true, ItemId).value
      requires var reply := server.created(CreateCall([addr]));
        Is2xx(reply.status) && reply.json.Some? && reply.json.value.single.Some?
      ensures CreatePlan([addr], server, walk).steps[|CreatePlan([addr], server, walk).steps| - 1] == Request(CreateCall([addr]))
      ensures CreatePlan([addr], server, walk).result == Ok([server.created(CreateCall([addr])).json.value.single.value])
    {
      ChecksOkIffAllNew([addr], ListingResult(walk, true, ItemId));
    }

    /**
     * update_object_group's backup comes after the GET and before the PUT, and
     * whether the backup file could be written changes nothing else: the same
     * requests in the same order, and the same result.
     */
    lemma BackupOnlyAddsItsStep(groupUuid: string, newObjects: seq<Json>, server: Controller, timestamp: string, backupId: string)
      ensures var written := MergePlan(groupUuid, newObjects, server, timestamp, backupId, true);
        var skipped := MergePlan(groupUuid, newObjects, server, timestamp, backupId, false);
        var r := server.documents(GroupCall(groupUuid));
        && written.result == skipped.result
        && skipped.steps[0] == Request(GroupCall(groupUuid))
        && (if Is2xx(r.status) && r.json.Some?
            then written.steps == skipped.steps[..1] + [Backup(BackupPath(backupId), WithBackupFields(r.json.value, timestamp, backupId))] + skipped.steps[1..]
            else written.steps == skipped.steps)
    {
      var r := server.documents(GroupCall(groupUuid));
      var skipped := MergePlan(groupUuid, newObjects, server, timestamp, backupId, false);
      if Is2xx(r.status) && r.json.Some? {
        assert skipped.steps[..1] == [Request(GroupCall(groupUuid))];
      }
    }

    /**
     * update_object_group writes the group back exactly when it was fetched
     * and could be merged, and then with the fetched group stripped of its
     * server fields and extended by the new objects; the PUT is the last
     * step and nothing before it writes.
     */
    lemma MergePutsMergedGroup(groupUuid: string, newObjects: seq<Json>, server: Controller,
                               timestamp: string, backupId: string, backupWritten: bool)
      ensures var plan := MergePlan(groupUuid, newObjects, server, timestamp, backupId, backupWritten);
        var r := server.documents(GroupCall(groupUuid));
        && (Writes(plan.steps) <==> Is2xx(r.status) && r.json.Some? && MergedBody(r.json.value, newObjects).Ok?)
        && (Writes(plan.steps) ==>
              && plan.steps[|plan.steps| - 1] == Request(GroupPut(groupUuid, MergedBody(r.json.value, newObjects).value))
              && !Writes(plan.steps[..|plan.steps| - 1]))
    {
      var plan := MergePlan(groupUuid, newObjects, server, timestamp, backupId, backupWritten);
      var r := server.documents(GroupCall(groupUuid));
      if Is2xx(r.status) && r.json.Some? && MergedBody(r.json.value, newObjects).Ok? {
        var put := Request(GroupPut(groupUuid, MergedBody(r.json.value, newObjects).value));
        assert plan.steps[|plan.steps| - 1] == put;
        assert put.call.verb == PUT;
        var before := plan.steps[..|plan.steps| - 1];
        assert forall k :: 0 <= k < |before| && before[k].Request? ==> before[k] == Request(GroupCall(groupUuid));
      } else {
        assert forall k :: 0 <= k < |plan.steps| && plan.steps[k].Request? ==> plan.steps[k] == Request(GroupCall(groupUuid));
      }
    }

    /**
     * deploy_to_device posts a deployment exactly when the listing names the
     * device, and then only for the first listed device of that name, with
     * its version and id; otherwise it raises FirewallNotDeployable without
     * writing.
     */
    lemma DeployWritesOnlyForFirstMatch(deviceName: string, server: Controller)
      ensures var plan := DeployPlan(deviceName, server);
        var r := server.deployable(DeployableCall());
        && plan.steps[0] == Request(DeployableCall())
        && (Writes(plan.steps) <==> Is2xx(r.status) && r.json.Some? && deviceName in DeviceNames(r.json.value))
        && (plan.result == Err(NotDeployable(deviceName)) <==>
              Is2xx(r.status) && r.json.Some? && deviceName !in DeviceNames(r.json.value))
        && (Writes(plan.steps) ==>
              var k := FirstIndex(DeviceNames(r.json.value), deviceName).value;
              && plan.steps == [Request(DeployableCall()), Request(DeployCall(r.json.value[k]))]
              && (forall j :: 0 <= j < k ==> r.json.value[j].name != deviceName)
              && r.json.value[k].name == deviceName)
    {
      var plan := DeployPlan(deviceName, server);
      var r := server.deployable(DeployableCall());
      if Is2xx(r.status) && r.json.Some? && deviceName in DeviceNames(r.json.value) {
        var k := FirstIndex(DeviceNames(r.json.value), deviceName).value;
        assert plan.steps[1].call.verb == POST;
      } else {
        assert forall k :: 0 <= k < |plan.steps| ==> plan.steps[k] == Request(DeployableCall());
      }
    }
  }

  /** The existence checks succeed exactly when every address is missing from a readable inventory. */
  lemma ChecksOkIffAllNew(ipAddrs: seq<string>, inventory: Result<map<string, string>, Error>)
    requires |ipAddrs| > 0
    ensures ChecksOutcome(ipAddrs, inventory).Ok? <==>
      inventory.Ok? && forall j :: 0 <= j < |ipAddrs| ==> ipAddrs[j] !in inventory.value
    ensures inventory.Ok? && ChecksOutcome(ipAddrs, inventory).Err? ==>
      var k := FirstKnown(ipAddrs, inventory.value.Keys).value;
      ChecksOutcome(ipAddrs, inventory) == Err(HostAlreadyExists(ipAddrs[k]))
  {
    if inventory.Ok? {
      match FirstKnown(ipAddrs, inventory.value.Keys)
      case Some(k) =>
        assert ipAddrs[k] in inventory.value;
      case None =>
        assert ChecksRun(ipAddrs, inventory) == |ipAddrs|;
    }
  }

  /** The names of the listed deployable devices, in order. */
  function DeviceNames(devices: seq<DeployableItem>): (names: seq<string>)
    ensures |names| == |devices|
    ensures forall i :: 0 <= i < |devices| ==> names[i] == devices[i].name
  {
    seq(|devices|, i requires 0 <= i < |devices| => devices[i].name)
  }

  /** The deployment body for one listed device: its version, its id alone in the device list, forced and ignoring warnings. */
  function DeploymentFor(device: DeployableItem): (body: DeploymentRequest)
    ensures body.version == Some(device.version) && body.deviceList == [device.deviceId]
    ensures body.forceDeploy && body.ignoreWarning
    ensures body.objectType == "DeploymentRequest" && body.description == Some(DeploymentDescription)
  {
    DeploymentRequest("DeploymentRequest", Some(device.version), true, true, Some(DeploymentDescription), [device.deviceId])
  }

  /** The warning raised when no listed device has the name. */
  function NotDeployable(deviceName: string): Error
  {
    FirewallNotDeployable(deviceName, "FTD " + deviceName + " is not in a deployable state.")
  }

  /** How many inventory listings the existence checks of create_host_objects run before they stop. */
  function ChecksRun(ipAddrs: seq<string>, inventory: Result<map<string, string>, Error>): (n: nat)
    ensures n <= |ipAddrs|
    ensures |ipAddrs| > 0 ==> n > 0
  {
    if |ipAddrs| == 0 then 0
    else if inventory.Err? then 1
    else
      match FirstKnown(ipAddrs, inventory.value.Keys)
      case Some(k) => k + 1
      case None => |ipAddrs|
  }

  /** What the existence checks return: the verdict on the last address they checked. */
  function ChecksOutcome(ipAddrs: seq<string>, inventory: Result<map<string, string>, Error>): Result<bool, Error>
  {
    if |ipAddrs| == 0 then Ok(true) else Verdict(inventory, ipAddrs[ChecksRun(ipAddrs, inventory) - 1])
  }

  /** The checks stop at the first address whose check fails. */
  lemma ChecksStopAt(ipAddrs: seq<string>, inventory: Result<map<string, string>, Error>, i: nat)
    requires i < |ipAddrs|
    requires i > 0 ==> inventory.Ok? && forall j :: 0 <= j < i ==> ipAddrs[j] !in inventory.value
    requires Verdict(inventory, ipAddrs[i]).Err?
    ensures ChecksRun(ipAddrs, inventory) == i + 1
    ensures ChecksOutcome(ipAddrs, inventory) == Verdict(inventory, ipAddrs[i])
  {
    if inventory.Ok? {
      assert FirstKnown(ipAddrs, inventory.value.Keys) == Some(i);
    }
  }

  /** When no address fails its check, every address is checked and the checks succeed. */
  lemma ChecksPass(ipAddrs: seq<string>, inventory: Result<map<string, string>, Error>)
    requires |ipAddrs| > 0 ==> inventory.Ok? && forall j :: 0 <= j < |ipAddrs| ==> ipAddrs[j] !in inventory.value
    ensures ChecksRun(ipAddrs, inventory) == |ipAddrs|
    ensures ChecksOutcome(ipAddrs, inventory) == Ok(true)
  {
  }

  /** An address that passes its check extends the run of new addresses. */
  lemma PassedOne(ipAddrs: seq<string>, inventory: Result<map<string, string>, Error>, i: nat)
    requires i < |ipAddrs|
    requires i > 0 ==> inventory.Ok? && forall j :: 0 <= j < i ==> ipAddrs[j] !in inventory.value
    requires Verdict(inventory, ipAddrs[i]).Ok?
    ensures inventory.Ok? && forall j :: 0 <= j < i + 1 ==> ipAddrs[j] !in inventory.value
  {
  }

  /** check_host_exists's verdict on an inventory listing. */
  function Verdict(inventory: Result<map<string, string>, Error>, hostName: string): (r: Result<bool, Error>)
    ensures r.Ok? <==> inventory.Ok? && hostName !in inventory.value
    ensures r.Ok? ==> r.value
    ensures inventory.Err? ==> r == Err(inventory.error)
    ensures inventory.Ok? && hostName in inventory.value ==> r == Err(HostAlreadyExists(hostName))
  {
    match inventory
    case Err(e) => Err(e)
    case Ok(allHosts) => if hostName in allHosts then Err(HostAlreadyExists(hostName)) else Ok(true)
  }

  /** The first address that is already known, if any. */
  function FirstKnown(addrs: seq<string>, known: set<string>): (k: Option<nat>)
    ensures k.Some? ==> k.value < |addrs| && addrs[k.value] in known
    ensures k.Some? ==> forall j :: 0 <= j < k.value ==> addrs[j] !in known
    ensures k.None? <==> forall j :: 0 <= j < |addrs| ==> addrs[j] !in known
    decreases |addrs|
  {
    if addrs == [] then None
    else if addrs[0] in known then Some(0)
    else
      match FirstKnown(addrs[1..], known)
      case None => None
      case Some(k) => Some(k + 1)
  }

  /**
   * The references create_host_objects returns from the creation reply of the
   * checking client: the reply's "items" after a bulk create, its own name,
   * id and type after a single one; a body that does not decode fails.
   */
  function CreatedRefs(count: nat, reply: Response<CreateReply>): (r: Result<seq<ObjRef>, Error>)
    requires count >= 1
    ensures !Is2xx(reply.status) ==> r == Err(Raised(Utils.StatusCodeError(reply.status, reply.text)))
    ensures Is2xx(reply.status) && reply.json.None? ==> r == Err(NotJson)
    ensures r.Ok? ==> Is2xx(reply.status) && reply.json.Some?
    ensures r.Ok? && count > 1 ==> reply.json.value.items == Some(r.value)
    ensures r.Ok? && count == 1 ==> reply.json.value.single.Some? && r.value == [reply.json.value.single.value]
    ensures Is2xx(reply.status) && reply.json.Some? && count == 1 && reply.json.value.single.Some? ==> r.Ok?
    ensures Is2xx(reply.status) && reply.json.Some? && count > 1 && reply.json.value.items.Some? ==> r.Ok?
  {
    match Checked(reply)
    case Err(e) => Err(e)
    case Ok(_) =>
      if reply.json.None? then Err(NotJson)
      else if count > 1 then
        if reply.json.value.items.None? then Err(Malformed("items"))
        else Ok(reply.json.value.items.value)
      else
        if reply.json.value.single.None? then Err(Malformed("name"))
        else Ok([reply.json.value.single.value])
  }
}
