/**
 * The earlier, non-checking firewall-management client (fmc.py). Its
 * get/post/put hand back whatever the controller answers, whatever the
 * status; there is no existence check before creating hosts, the address
 * index records each object's self link, and deployment goes to the two
 * data-centre devices named in the configuration.
 *
 * As in the checking client, each state-changing method is specified by a
 * Plan: the requests it sends, in order, and how it ends.
 */
module Fmc {
  import opened Wrappers
  import opened Api
  import opened Session
  import opened Paging
  import opened Groups
  import Utils

  /** A deployable device as get_deployable_devices flattens it: {"name", "id" (the device's), "version"}. */
  datatype DeviceRef = DeviceRef(name: string, id: string, version: string)

  class AdderFmc {
    const host: string
    const authToken: string
    const refreshToken: string
    const domainUuid: string
    /** The instant (in seconds) after which the access token is taken to be expired. */
    var tokenExpire: int
    const networkGroupId: string
    const dfwFtd: string
    const ordFtd: string
    /** Every request the client has sent, in order. */
    ghost var trace: seq<Step>

    function Credentials(): Tokens
    {
      Tokens(authToken, refreshToken)
    }

    /** The trace grew by exactly `steps`, and the token tracker moved as those steps' requests make it. */
    twostate predicate Did(steps: seq<Step>, now: int)
      reads this
    {
      && trace == old(trace) + steps
      && tokenExpire == Advance(steps, old(tokenExpire), now)
    }

    /** Since the trace was `t0` and the tracked expiry `e0`, exactly `steps` were taken. */
    ghost predicate Since(t0: seq<Step>, e0: int, steps: seq<Step>, now: int)
      reads this
    {
      && trace == t0 + steps
      && tokenExpire == Advance(steps, e0, now)
    }

    /** A session opened at `now`; the token is taken to be good for the next thirty minutes. */
    constructor (host: string, tokens: Tokens, domainUuid: string, networkGroupId: string,
                 dfwFtd: string, ordFtd: string, now: int)
      ensures this.host == host && authToken == tokens.access && refreshToken == tokens.refresh
      ensures this.domainUuid == domainUuid && this.networkGroupId == networkGroupId
      ensures this.dfwFtd == dfwFtd && this.ordFtd == ordFtd
      ensures tokenExpire == now + TokenLifetime
      ensures trace == []
    {
      this.host := host;
      authToken := tokens.access;
      refreshToken := tokens.refresh;
      this.domainUuid := domainUuid;
      tokenExpire := now + TokenLifetime;
      this.networkGroupId := networkGroupId;
      this.dfwFtd := dfwFtd;
      this.ordFtd := ordFtd;
      trace := [];
    }

    /** The access token, with the refresh token when the tracked expiry has passed; then the expiry is pushed thirty minutes past `now`. */
    method GetAuthHeader(now: int) returns (header: AuthHeader)
      modifies this`tokenExpire
      ensures header == HeaderAt(Credentials(), old(tokenExpire), now)
      ensures tokenExpire == ExpireAfter(old(tokenExpire), now)
      ensures header.AccessAndRefresh? <==> old(tokenExpire) < now
      ensures now <= tokenExpire
    {
      if tokenExpire < now {
        tokenExpire := now + TokenLifetime;
        header := AccessAndRefresh(authToken, refreshToken);
      } else {
        header := AccessOnly(authToken);
      }
    }

    /** The request URL: the override when one is given, else the host followed by the path. */
    function Target(uri: string, url: Option<string>): string
    {
      if url.Some? then url.value else host + uri
    }

    /** One GET, whose response is returned whatever its status. */
    method Get<T>(uri: string, server: Call -> Response<T>, now: int,
                  payload: seq<Param> := [], url: Option<string> := None, body: Body := NoBody)
      returns (r: Response<T>)
      modifies this`tokenExpire, this`trace
      ensures Did([Request(Call(GET, Target(uri, url), payload, body))], now)
      ensures r == server(Call(GET, Target(uri, url), payload, body))
    {
      var call := Call(GET, Target(uri, url), payload, body);
      var header := GetAuthHeader(now);
      trace := trace + [Request(call)];
      assert [Request(call)][0].Request?;
      r := server(call);
    }

    /** One POST of `body`, whose response is returned whatever its status. */
    method Post<T>(uri: string, body: Body, server: Call -> Response<T>, now: int,
                   payload: seq<Param> := [], url: Option<string> := None)
      returns (r: Response<T>)
      modifies this`tokenExpire, this`trace
      ensures Did([Request(Call(POST, Target(uri, url), payload, body))], now)
      ensures r == server(Call(POST, Target(uri, url), payload, body))
    {
      var call := Call(POST, Target(uri, url), payload, body);
      var header := GetAuthHeader(now);
      trace := trace + [Request(call)];
      assert [Request(call)][0].Request?;
      r := server(call);
    }

    /** One PUT of `body`, whose response is returned whatever its status. */
    method Put<T>(uri: string, body: Body, server: Call -> Response<T>, now: int,
                  payload: seq<Param> := [], url: Option<string> := None)
      returns (r: Response<T>)
      modifies this`tokenExpire, this`trace
      ensures Did([Request(Call(PUT, Target(uri, url), payload, body))], now)
      ensures r == server(Call(PUT, Target(uri, url), payload, body))
    {
      var call := Call(PUT, Target(uri, url), payload, body);
      var header := GetAuthHeader(now);
      trace := trace + [Request(call)];
      assert [Request(call)][0].Request?;
      r := server(call);
    }

    // -------------------------------------------------------------------------
    // Paths and first requests
    // -------------------------------------------------------------------------

    function AddressesUri(): string { DomainBase(domainUuid) + "/object/networkaddresses" }
    function HostsUri(): string { DomainBase(domainUuid) + "/object/hosts" }
    function NetgrpUri(): string { DomainBase(domainUuid) + "/object/networkgroups/" + networkGroupId }
    function DeployableUri(): string { DomainBase(domainUuid) + "/deployment/deployabledevices" }
    function DeploymentsUri(): string { DomainBase(domainUuid) + "/deployment/deploymentrequests" }

    /** The first page of the address listing: up to 1000 entries. */
    function AddressesCall(): Call
    {
      Call(GET, host + AddressesUri(), [Limit(1000)], NoBody)
    }

    /** The configured network group. */
    function NetgrpCall(): Call
    {
      Call(GET, host + NetgrpUri(), [], NoBody)
    }

    /** The deployable-device listing, expanded. */
    function DeployableCall(): Call
    {
      Call(GET, host + DeployableUri(), [Expanded(true)], NoBody)
    }

    // -------------------------------------------------------------------------
    // Group contents (get_netgrp_ips)
    // -------------------------------------------------------------------------

    /** The group contents get_netgrp_ips reports for the group document it receives. */
    static function GroupContents(r: Response<JsonObject>): Result<seq<Json>, Error>
    {
      if r.json.None? then Err(NotJson) else GroupIps(r.json.value)
    }

    /** get_netgrp_ips: fetches the configured group; its object names, then its literal values. */
    method GetNetgrpIps(server: Call -> Response<JsonObject>, now: int) returns (res: Result<seq<Json>, Error>)
      modifies this`tokenExpire, this`trace
      ensures Did([Request(NetgrpCall())], now)
      ensures res == GroupContents(server(NetgrpCall()))
    {
      var r := Get(NetgrpUri(), server, now);
      if r.json.None? {
        return Err(NotJson);
      }
      res := CollectIps(r.json.value);
    }

    // -------------------------------------------------------------------------
    // The address inventory (get_all_hosts)
    // -------------------------------------------------------------------------

    /** Fetches page n of an address listing: the request the loop sends for it, answered by that page. */
    method GetPage(server: Call -> Response<Page>, now: int, payload: seq<Param>, url: Option<string>,
                   ghost walk: seq<Response<Page>>, ghost n: nat, ghost t0: seq<Step>, ghost e0: int)
      returns (r: Response<Page>)
      requires IsWalk(server, AddressesCall(), walk, false) && n < |walk|
      requires n == 0 ==> url == None && payload == [Limit(1000)]
      requires n > 0 ==> HasNext(walk[n - 1]) && url == Some(walk[n - 1].json.value.next.value) && payload == []
      requires Since(t0, e0, WalkSteps(AddressesCall(), walk[..n]), now)
      modifies this`tokenExpire, this`trace
      ensures Since(t0, e0, WalkSteps(AddressesCall(), walk[..n + 1]), now)
      ensures r == walk[n]
      ensures r.json.Some? && r.json.value.next.Some? <==> n < |walk| - 1
    {
      ghost var before, request := WalkSteps(AddressesCall(), walk[..n]), Request(WalkCall(AddressesCall(), walk, n));
      r := Get(AddressesUri(), server, now, payload, url);
      WalkAt(server, AddressesCall(), walk, false, n);
      WalkStepsExtend(AddressesCall(), walk, n);
      AdvanceAppend(before, [request], e0, now);
      assert t0 + before + [request] == t0 + (before + [request]);
    }

    /**
     * Pages through every network address, whatever the statuses, and maps
     * each name to the object's self link, the last page carrying a name
     * winning; a page whose body has no items ends the listing.
     */
    method GetAllHosts(server: Call -> Response<Page>, now: int, ghost walk: seq<Response<Page>>)
      returns (res: Result<map<string, string>, Error>)
      requires IsWalk(server, AddressesCall(), walk, false)
      modifies this`tokenExpire, this`trace
      ensures Did(WalkSteps(AddressesCall(), walk), now)
      ensures res == ListingResult(walk, false, ItemSelfLink)
    {
      var allHosts: map<string, string> := map[];
      var url: Option<string> := None;
      var payload: seq<Param> := [Limit(1000)];
      ghost var n: nat := 0;
      while true
        invariant n < |walk|
        invariant n == 0 ==> url == None && payload == [Limit(1000)]
        invariant n > 0 ==> HasNext(walk[n - 1]) && url == Some(walk[n - 1].json.value.next.value) && payload == []
        invariant allHosts == Index(Items(walk[..n]), ItemSelfLink)
        invariant Since(old(trace), old(tokenExpire), WalkSteps(AddressesCall(), walk[..n]), now)
        decreases |walk| - n
      {
        var r := GetPage(server, now, payload, url, walk, n, old(trace), old(tokenExpire));
        if r.json.None? {
          assert walk[..n + 1] == walk;
          return Err(Malformed("items"));
        }
        allHosts := RecordPage(allHosts, r.json.value, ItemSelfLink, walk, n);
        n := n + 1;
        if r.json.value.next.Some? {
          url := Some(r.json.value.next.value);
          payload := [];
        } else {
          break;
        }
      }
      assert walk[..n] == walk;
      res := Ok(allHosts);
    }

    // -------------------------------------------------------------------------
    // Host creation (create_host_objects)
    // -------------------------------------------------------------------------

    /** The creation request: a bulk POST of every entry for several addresses, a plain POST of the first for one. */
    function CreateCall(ipAddrs: seq<string>): Call
      requires |ipAddrs| > 0
    {
      if |ipAddrs| > 1 then Call(POST, host + HostsUri(), [Bulk(true)], Hosts(HostEntries(ipAddrs)))
      else Call(POST, host + HostsUri(), [], Host(HostEntryFor(ipAddrs[0])))
    }

    /**
     * What create_host_objects does: with no check beforehand, one creation
     * request, then the "items" of the reply; an empty list fails on its first
     * element before anything is sent.
     */
    ghost function CreatePlan(ipAddrs: seq<string>, server: Controller): Plan<seq<ObjRef>>
    {
      if |ipAddrs| == 0 then Plan([], Err(IndexError))
      else Plan([Request(CreateCall(ipAddrs))], CreatedItems(server.created(CreateCall(ipAddrs))))
    }

    /** create_host_objects: creates one host object per address, trusting the controller to refuse duplicates. */
    method CreateHostObjects(ipAddrs: seq<string>, server: Controller, now: int)
      returns (res: Result<seq<ObjRef>, Error>)
      modifies this`tokenExpire, this`trace
      ensures Did(CreatePlan(ipAddrs, server).steps, now)
      ensures res == CreatePlan(ipAddrs, server).result
    {
      var r: Response<CreateReply>;
      if |ipAddrs| > 1 {
        var multiBody := CreateBulkRequestBody(ipAddrs);
        r := Post(HostsUri(), Hosts(multiBody), server.created, now, [Bulk(true)]);
      } else {
        if |ipAddrs| == 0 {
          return Err(IndexError);
        }
        var singleBody := HostEntry(ipAddrs[0], ipAddrs[0], HostDescription, "Host");
        r := Post(HostsUri(), Host(singleBody), server.created, now);
      }
      if !(200 <= r.status <= 299) {
        if r.json.None? {
          return Err(NotJson);
        }
        return Err(Raised(Utils.SomethingBroke(Utils.HttpResponse(r.status), "Failure to create objects")));
      }
      if r.json.None? {
        return Err(NotJson);
      }
      if r.json.value.items.None? {
        return Err(Malformed("items"));
      }
      var items := r.json.value.items.value;
      var newObjects: seq<ObjRef> := [];
      for i := 0 to |items|
        invariant newObjects == items[..i]
      {
        newObjects := newObjects + [ObjRef(items[i].name, items[i].id, items[i].objectType)];
      }
      assert items[..|items|] == items;
      return Ok(newObjects);
    }

    // -------------------------------------------------------------------------
    // Deployment (get_deployable_devices, deploy_to_devices)
    // -------------------------------------------------------------------------

    /** What get_deployable_devices does: the listing, flattened to name, device id and version. */
    ghost function DeployablesPlan(server: Controller): Plan<seq<DeviceRef>>
    {
      var r := server.deployable(DeployableCall());
      Plan([Request(DeployableCall())], if r.json.None? then Err(Malformed("items")) else Ok(Flattened(r.json.value)))
    }

    /** get_deployable_devices: one entry per listed device, in order, whatever the status. */
    method GetDeployableDevices(server: Controller, now: int) returns (res: Result<seq<DeviceRef>, Error>)
      modifies this`tokenExpire, this`trace
      ensures Did(DeployablesPlan(server).steps, now)
      ensures res == DeployablesPlan(server).result
    {
      var r := Get(DeployableUri(), server.deployable, now, [Expanded(true)]);
      if r.json.None? {
        return Err(Malformed("items"));
      }
      var items := r.json.value;
      var responseData: seq<DeviceRef> := [];
      for i := 0 to |items|
        invariant responseData == Flattened(items[..i])
      {
        responseData := responseData + [DeviceRef(items[i].name, items[i].deviceId, items[i].version)];
      }
      assert items[..|items|] == items;
      return Ok(responseData);
    }

    /** The deployment request for one device: its version and its id alone in the device list. */
    function DeployCall(device: DeviceRef): Call
    {
      Call(POST, host + DeploymentsUri(), [], Deployment(DeploymentFor(device)))
    }

    /** The POSTs deploy_to_devices sends for one device: one if it is the first data-centre device, one if it is the second. */
    function PostsFor(device: DeviceRef): seq<Step>
    {
      (if device.name == dfwFtd then [Request(DeployCall(device))] else [])
      + (if device.name == ordFtd then [Request(DeployCall(device))] else [])
    }

    /** The POSTs deploy_to_devices sends over a listing, device after device. */
    function DeployPosts(devices: seq<DeviceRef>): seq<Step>
      decreases |devices|
    {
      if devices == [] then [] else DeployPosts(devices[..|devices| - 1]) + PostsFor(devices[|devices| - 1])
    }

    /** The response deploy_to_devices keeps for `target`: that of the POST for the last device of that name, if any. */
    function LastResponse(devices: seq<DeviceRef>, target: string, server: Call -> Response<JsonObject>): Option<Response<JsonObject>>
    {
      match LastNamed(devices, target)
      case None => None
      case Some(k) => Some(server(DeployCall(devices[k])))
    }

    /** What deploy_to_devices does: the listing, then a POST per entry naming either data-centre device. */
    ghost function DeployAllPlan(server: Controller): Plan<(Option<Response<JsonObject>>, Option<Response<JsonObject>>)>
    {
      var listing := DeployablesPlan(server);
      match listing.result
      case Err(e) => Plan(listing.steps, Err(e))
      case Ok(devices) =>
        Plan(listing.steps + DeployPosts(devices),
             Ok((LastResponse(devices, dfwFtd, server.documents), LastResponse(devices, ordFtd, server.documents))))
    }

    /** The loop body of deploy_to_devices for one device: its POSTs, and the responses they give. */
    method DeployOne(device: DeviceRef, server: Call -> Response<JsonObject>, now: int)
      returns (dfw: Option<Response<JsonObject>>, ord: Option<Response<JsonObject>>)
      modifies this`tokenExpire, this`trace
      ensures Did(PostsFor(device), now)
      ensures dfw == if device.name == dfwFtd then Some(server(DeployCall(device))) else None
      ensures ord == if device.name == ordFtd then Some(server(DeployCall(device))) else None
    {
      dfw, ord := None, None;
      ghost var first: seq<Step> := [];
      if device.name == dfwFtd {
        var r := Post(DeploymentsUri(), Deployment(DeploymentFor(device)), server, now);
        dfw := Some(r);
        first := [Request(DeployCall(device))];
      }
      if device.name == ordFtd {
        var r := Post(DeploymentsUri(), Deployment(DeploymentFor(device)), server, now);
        ord := Some(r);
        AdvanceAppend(first, [Request(DeployCall(device))], old(tokenExpire), now);
      }
    }

    /** The loop of deploy_to_devices over a listing: the POSTs in order, and the last response kept for each device. */
    method DeployEach(devices: seq<DeviceRef>, server: Call -> Response<JsonObject>, now: int)
      returns (dfwResponse: Option<Response<JsonObject>>, ordResponse: Option<Response<JsonObject>>)
      modifies this`tokenExpire, this`trace
      ensures Did(DeployPosts(devices), now)
      ensures dfwResponse == LastResponse(devices, dfwFtd, server)
      ensures ordResponse == LastResponse(devices, ordFtd, server)
    {
      dfwResponse, ordResponse := None, None;
      ghost var posts: seq<Step> := [];
      for i := 0 to |devices|
        invariant posts == DeployPosts(devices[..i])
        invariant Did(posts, now)
        invariant dfwResponse == LastResponse(devices[..i], dfwFtd, server)
        invariant ordResponse == LastResponse(devices[..i], ordFtd, server)
      {
        var dfw, ord := DeployOne(devices[i], server, now);
        AdvanceAppend(posts, PostsFor(devices[i]), old(tokenExpire), now);
        DeployPostsExtend(devices, i);
        assert old(trace) + posts + PostsFor(devices[i]) == old(trace) + (posts + PostsFor(devices[i]));
        posts := posts + PostsFor(devices[i]);
        LastResponseExtend(devices, i, dfwFtd, server);
        LastResponseExtend(devices, i, ordFtd, server);
        if dfw.Some? {
          dfwResponse := dfw;
        }
        if ord.Some? {
          ordResponse := ord;
        }
      }
      assert devices[..|devices|] == devices;
    }

    /**
     * deploy_to_devices: deploys to every listed entry naming one of the two
     * data-centre devices; for each, the response of the last such POST, or
     * None when the device is not listed.
     */
    method DeployToDevices(server: Controller, now: int)
      returns (res: Result<(Option<Response<JsonObject>>, Option<Response<JsonObject>>), Error>)
      modifies this`tokenExpire, this`trace
      ensures Did(DeployAllPlan(server).steps, now)
      ensures res == DeployAllPlan(server).result
    {
      var deployableDevices := GetDeployableDevices(server, now);
      if deployableDevices.Err? {
        return Err(deployableDevices.error);
      }
      var devices := deployableDevices.value;
      ghost var listing := DeployablesPlan(server).steps;
      var dfwResponse, ordResponse := DeployEach(devices, server.documents, now);
      AdvanceAppend(listing, DeployPosts(devices), old(tokenExpire), now);
      return Ok((dfwResponse, ordResponse));
    }

    /** Taking one more device makes its POST the one kept for its name, and leaves the other name's alone. */
    lemma LastResponseExtend(devices: seq<DeviceRef>, i: nat, name: string, server: Call -> Response<JsonObject>)
      requires i < |devices|
      ensures LastResponse(devices[..i + 1], name, server)
        == if devices[i].name == name then Some(server(DeployCall(devices[i]))) else LastResponse(devices[..i], name, server)
    {
      LastNamedExtend(devices, i, name);
    }

    /**
     * create_host_objects sends its creation request with no existence check
     * beforehand: for any non-empty list the only step is that POST, so an
     * address the controller already knows is left for it to refuse.
     */
    lemma CreatePostsUnchecked(ipAddrs: seq<string>, server: Controller)
      requires |ipAddrs| > 0
      ensures CreatePlan(ipAddrs, server).steps == [Request(CreateCall(ipAddrs))]
      ensures Writes(CreatePlan(ipAddrs, server).steps)
      ensures CreatePlan(ipAddrs, server).result.Ok? <==>
        var reply := server.created(CreateCall(ipAddrs));
        Is2xx(reply.status) && reply.json.Some? && reply.json.value.items.Some?
    {
      assert CreatePlan(ipAddrs, server).steps[0].call.verb == POST;
    }

    /**
     * A single address is posted as one object, and the reply to such a post
     * describes that object rather than listing "items": the object is created
     * and create_host_objects still fails reading "items".
     */
    lemma SingleCreateFailsAfterPost(addr: string, server: Controller)
      requires var reply := server.created(CreateCall([addr]));
        Is2xx(reply.status) && reply.json.Some? && reply.json.value.single.Some? && reply.json.value.items.None?
      ensures CreateCall([addr]).body == Host(HostEntryFor(addr)) && CreateCall([addr]).params == []
      ensures CreatePlan([addr], server).steps == [Request(CreateCall([addr]))]
      ensures CreatePlan([addr], server).result == Err(Malformed("items"))
    {
    }

    /**
     * Every POST deploy_to_devices sends is the deployment of a listed device
     * named like one of the two data-centre devices; when none is listed it
     * sends nothing and keeps no response.
     */
    lemma {:induction false} DeployPostsTargets(devices: seq<DeviceRef>)
      ensures forall s :: s in DeployPosts(devices) ==>
        exists d :: d in devices && (d.name == dfwFtd || d.name == ordFtd) && s == Request(DeployCall(d))
      ensures (forall d :: d in devices ==> d.name != dfwFtd && d.name != ordFtd) ==> DeployPosts(devices) == []
      decreases |devices|
    {
      if devices != [] {
        var n := |devices|;
        var init := devices[..n - 1];
        DeployPostsTargets(init);
        forall s | s in DeployPosts(devices)
          ensures exists d :: d in devices && (d.name == dfwFtd || d.name == ordFtd) && s == Request(DeployCall(d))
        {
          if s in DeployPosts(init) {
            var d :| d in init && (d.name == dfwFtd || d.name == ordFtd) && s == Request(DeployCall(d));
            assert d in devices;
          } else {
            assert s in PostsFor(devices[n - 1]);
            assert devices[n - 1] in devices;
          }
        }
        if forall d :: d in devices ==> d.name != dfwFtd && d.name != ordFtd {
          assert forall d :: d in init ==> d in devices;
          assert devices[n - 1] in devices;
        }
      }
    }

    /** Taking one more device adds its POSTs after those of the devices before it. */
    lemma DeployPostsExtend(devices: seq<DeviceRef>, i: nat)
      requires i < |devices|
      ensures DeployPosts(devices[..i + 1]) == DeployPosts(devices[..i]) + PostsFor(devices[i])
    {
      assert devices[..i + 1][..i] == devices[..i];
    }

    /** The POSTs for the first entries of the listing come first among the POSTs for all of it. */
    lemma {:induction false} DeployPostsPrefix(devices: seq<DeviceRef>, j: nat)
      requires j <= |devices|
      ensures DeployPosts(devices[..j]) <= DeployPosts(devices)
      decreases |devices|
    {
      if j < |devices| {
        var n := |devices|;
        assert devices[..n - 1][..j] == devices[..j];
        DeployPostsPrefix(devices[..n - 1], j);
      } else {
        assert devices[..j] == devices;
      }
    }

    /**
     * Every listed entry named like either data-centre device gets its POST,
     * right after the POSTs of the entries listed before it.
     */
    lemma DeployPostsEveryTarget(devices: seq<DeviceRef>, i: nat)
      requires i < |devices| && (devices[i].name == dfwFtd || devices[i].name == ordFtd)
      ensures var before := |DeployPosts(devices[..i])|;
        before < |DeployPosts(devices)| && DeployPosts(devices)[before] == Request(DeployCall(devices[i]))
    {
      DeployPostsPrefix(devices, i + 1);
      DeployPostsExtend(devices, i);
    }
  }

  /** Taking one more device makes it the last of its name, and leaves the other names' last devices alone. */
  lemma LastNamedExtend(devices: seq<DeviceRef>, i: nat, name: string)
    requires i < |devices|
    ensures LastNamed(devices[..i + 1], name) == if devices[i].name == name then Some(i) else LastNamed(devices[..i], name)
  {
    assert devices[..i + 1][..i] == devices[..i];
  }

  /** One entry per listed device, in order: its name, its device's id and its version. */
  function Flattened(items: seq<DeployableItem>): (refs: seq<DeviceRef>)
    ensures |refs| == |items|
    ensures forall i :: 0 <= i < |items| ==>
      refs[i].name == items[i].name && refs[i].id == items[i].deviceId && refs[i].version == items[i].version
  {
    seq(|items|, i requires 0 <= i < |items| => DeviceRef(items[i].name, items[i].deviceId, items[i].version))
  }

  /** The body of a deployment request: the device's version, its id alone, forced and ignoring warnings, with no description. */
  function DeploymentFor(device: DeviceRef): (body: DeploymentRequest)
    ensures body.version == Some(device.version) && body.deviceList == [device.id]
    ensures body.forceDeploy && body.ignoreWarning && body.description.None?
  {
    DeploymentRequest("DeploymentRequest", Some(device.version), true, true, None, [device.id])
  }

  /** The position of the last device named `name`, if any. */
  function LastNamed(devices: seq<DeviceRef>, name: string): (k: Option<nat>)
    ensures k.Some? ==> k.value < |devices| && devices[k.value].name == name
    ensures k.Some? ==> forall j :: k.value < j < |devices| ==> devices[j].name != name
    ensures k.None? <==> forall j :: 0 <= j < |devices| ==> devices[j].name != name
    decreases |devices|
  {
    if devices == [] then None
    else if devices[|devices| - 1].name == name then Some(|devices| - 1)
    else LastNamed(devices[..|devices| - 1], name)
  }

  /**
   * The references create_host_objects returns from the creation reply: the
   * reply's "items" after a 2xx status, whether one object or several was
   * created; any other status raises SomethingBroke about the response, once
   * the error body has been decoded for printing. A body that does not decode
   * fails on either path before anything else.
   */
  function CreatedItems(reply: Response<CreateReply>): (r: Result<seq<ObjRef>, Error>)
    ensures reply.json.None? ==> r == Err(NotJson)
    ensures !Is2xx(reply.status) && reply.json.Some? ==>
      r == Err(Raised(Utils.SomethingBroke(Utils.HttpResponse(reply.status), "Failure to create objects")))
    ensures Is2xx(reply.status) && reply.json.Some? && reply.json.value.items.None? ==> r == Err(Malformed("items"))
    ensures r.Ok? <==> Is2xx(reply.status) && reply.json.Some? && reply.json.value.items.Some?
    ensures r.Ok? ==> r.value == reply.json.value.items.value
  {
    if !Is2xx(reply.status) then
      if reply.json.None? then Err(NotJson)
      else Err(Raised(Utils.SomethingBroke(Utils.HttpResponse(reply.status), "Failure to create objects")))
    else if reply.json.None? then Err(NotJson)
    else if reply.json.value.items.None? then Err(Malformed("items"))
    else Ok(reply.json.value.items.value)
  }
}
