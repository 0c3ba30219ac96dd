/**
 * The data both firewall-management clients exchange with the controller:
 * JSON documents, the requests put on the wire, the responses, and the
 * controller itself modelled as data (a function from request to response
 * for each response shape the clients read).
 */
module Api {
  import opened Wrappers
  import Utils

  /** A JSON value as Python's json module decodes it. */
  datatype Json =
    | JStr(str: string)
    | JInt(number: int)
    | JBool(truth: bool)
    | JNull
    | JArr(elems: seq<Json>)
    | JObj(fields: map<string, Json>)

  /** A decoded JSON object (a Python dict). */
  type JsonObject = map<string, Json>

  datatype Verb = GET | POST | PUT

  /** The query parameters the clients send (`payload`); the empty sequence is `None`. */
  datatype Param = Limit(n: int) | Bulk(on: bool) | Expanded(on: bool)

  /** One host-object creation entry: {"name", "value", "description", "type"}. */
  datatype HostEntry = HostEntry(name: string, value: string, description: string, objectType: string)

  /** A reference to a created object: {"name", "id", "type"}. */
  datatype ObjRef = ObjRef(name: string, id: string, objectType: string)
  {
    /** The dict form in which a reference is appended to a group's "objects". */
    function ToJson(): Json
    {
      JObj(map["name" := JStr(name), "id" := JStr(id), "type" := JStr(objectType)])
    }
  }

  /** A deployment request body; `description` is absent from one of the two clients. */
  datatype DeploymentRequest = DeploymentRequest(
    objectType: string,
    version: Option<string>,
    forceDeploy: bool,
    ignoreWarning: bool,
    description: Option<string>,
    deviceList: seq<string>)

  /** The JSON body of a request. */
  datatype Body =
    | NoBody
    | Host(entry: HostEntry)
    | Hosts(entries: seq<HostEntry>)
    | Document(doc: JsonObject)
    | Deployment(request: DeploymentRequest)

  /** One HTTP request as the controller sees it: verb, absolute URL, query parameters, body. */
  datatype Call = Call(verb: Verb, url: string, params: seq<Param>, body: Body)

  /** The authentication headers built by get_auth_header. */
  datatype AuthHeader =
    | AccessOnly(access: string)
    | AccessAndRefresh(access: string, refresh: string)

  /** What an operation does to the world, in order: a request sent, or a backup file written. */
  datatype Step = Request(call: Call) | Backup(path: string, snapshot: JsonObject)

  /**
   * A response: its status, its decoded JSON when that has the fields the caller
   * reads (None otherwise, which makes the caller raise), and its raw text.
   */
  datatype Response<T> = Response(status: int, json: Option<T>, text: string)

  /** An entry of a listed collection (network addresses or network groups). */
  datatype Item = Item(name: string, id: string, selfLink: string)

  /** One page of a listing: its items and `paging.next[0]` when "next" is present. */
  datatype Page = Page(items: seq<Item>, next: Option<string>)

  /** A device with pending changes, as listed: {"name", "version", "device": {"id"}}. */
  datatype DeployableItem = DeployableItem(name: string, version: string, deviceId: string)

  /** A reply to a host creation: "items" for a bulk create, the top-level name, id and type of a single created object. */
  datatype CreateReply = CreateReply(items: Option<seq<ObjRef>>, single: Option<ObjRef>)

  /**
   * The controller. It answers each request from what is asked (verb, URL,
   * parameters, body); the auth header does not change the answer.
   */
  datatype Controller = Controller(
    pages: Call -> Response<Page>,
    documents: Call -> Response<JsonObject>,
    created: Call -> Response<CreateReply>,
    deployable: Call -> Response<seq<DeployableItem>>)

  /** Why an operation stopped. */
  datatype Error =
    | Raised(exception: Utils.Exception)
    | HostAlreadyExists(host: string)
    | HostNotFound(name: string)
    | FirewallNotDeployable(device: string, message: string)
    | Malformed(field: string)   // reading `field` of a decoded body failed (KeyError, TypeError)
    | IndexError                 // ip_addrs[0] on an empty list
    | NotJson                    // r.json() on a body that does not decode to an object

  /** Where the listings, objects and deployments of a domain live. */
  function DomainBase(domainUuid: string): string
  {
    "/api/fmc_config/v1/domain/" + domainUuid
  }

  const HostDescription := "Added via REST API"

  /** The creation entry for one address: name and value are the address itself. */
  function HostEntryFor(addr: string): (e: HostEntry)
    ensures e.name == addr && e.value == addr
    ensures e.description == HostDescription && e.objectType == "Host"
  {
    HostEntry(addr, addr, HostDescription, "Host")
  }

  /** The creation entries for a list of addresses, one per address, in order. */
  function HostEntries(addrs: seq<string>): (entries: seq<HostEntry>)
    ensures |entries| == |addrs|
    ensures forall i :: 0 <= i < |addrs| ==> entries[i] == HostEntryFor(addrs[i])
  {
    seq(|addrs|, i requires 0 <= i < |addrs| => HostEntryFor(addrs[i]))
  }

  /**
   * create_bulk_request_body (the same in both clients): one creation entry per
   * address, in order, appended one by one.
   */
  method CreateBulkRequestBody(ipAddrs: seq<string>) returns (requestBody: seq<HostEntry>)
    ensures requestBody == HostEntries(ipAddrs)
  {
    requestBody := [];
    for i := 0 to |ipAddrs|
      invariant |requestBody| == i
      invariant forall j :: 0 <= j < i ==> requestBody[j] == HostEntryFor(ipAddrs[j])
    {
      requestBody := requestBody + [HostEntry(ipAddrs[i], ipAddrs[i], HostDescription, "Host")];
    }
  }

  /** What an operation does, step by step, and how it ends. */
  datatype Plan<T> = Plan(steps: seq<Step>, result: Result<T, Error>)

  predicate Is2xx(status: int) { 200 <= status <= 299 }

  /** The status rule of the checking client: 2xx is returned as is, anything else raises StatusCodeError. */
  function Checked<T>(r: Response<T>): (res: Result<Response<T>, Error>)
    ensures res.Ok? <==> 200 <= r.status <= 299
    ensures res.Ok? ==> res.value == r
    ensures res.Err? ==> res.error == Raised(Utils.StatusCodeError(r.status, r.text))
  {
    if Is2xx(r.status) then Ok(r) else Err(Raised(Utils.StatusCodeError(r.status, r.text)))
  }

  /** Is any request of `steps` a write (POST or PUT)? */
  predicate Writes(steps: seq<Step>)
  {
    exists k :: 0 <= k < |steps| && steps[k].Request? && steps[k].call.verb != GET
  }

  /** The sequence s repeated n times. */
  function Repeat<T>(s: seq<T>, n: nat): seq<T>
  {
    if n == 0 then [] else Repeat(s, n - 1) + s
  }

  lemma {:induction false} RepeatReadOnly(s: seq<Step>, n: nat)
    requires !Writes(s)
    ensures !Writes(Repeat(s, n))
  {
    if n > 0 {
      RepeatReadOnly(s, n - 1);
      var r := Repeat(s, n - 1);
      forall k | 0 <= k < |r + s| && (r + s)[k].Request?
        ensures (r + s)[k].call.verb == GET
      {
        if k < |r| { assert (r + s)[k] == r[k]; } else { assert (r + s)[k] == s[k - |r|]; }
      }
    }
  }
}
