# Adder core, modelled in Dafny

Adder is an operator tool that adds a site's direct-internet-access (DIA)
addresses to a firewall-management controller (FMC). It reads the site's two
WAN routers' `dia1`/`dia2` addresses from the IPAM (NetBox), creates a host
object per address on the FMC, adds the objects to a network group, and pushes
the pending changes to the data-centre firewalls. This project models the
core of that tool and proves properties of the model:

- the checking FMC client `devices/fmc.py` (module `DevicesFmc`, class
  `AdderFmc`). It raises `StatusCodeError` on any status outside 200-299,
  checks every address against the full host inventory before creating
  anything, searches by name page by page, and backs up a group before
  rewriting it. Deployment goes to one named device.
- the older, unchecked FMC client `fmc.py` (module `Fmc`, class `AdderFmc`).
  It returns every response whatever its status and creates hosts without a
  check. It deploys to every listed entry that names one of the two
  data-centre firewalls.
- the helpers of `utils.py` (module `Utils`): the exception classes with their
  fields and string forms, site-code validation, and the IP-list overlap test.
- `get_dia_ip_addrs` of `devices/netbox.py` (module `DevicesNetbox`) and of
  `netbox.py` (module `Netbox`). The first skips a router at its first failed
  lookup; the second raises the first failure. Both cut three characters off
  each address to drop the mask (module `Ipam`).

Shared modules:

- `Api` holds the data exchanged with the controller (JSON, requests,
  responses, the controller as a function from request to response, errors).
- `Session` is the client-side token-expiry tracker.
- `Paging` covers listing and searching by following `paging.next` links.
- `Groups` covers reading and rewriting a network-group document.

The two FMC clients are classes whose methods change state. `tokenExpire` is
updated by `get_auth_header`. A ghost `trace` records every request sent and
every backup file written, in order. Each state-changing method is specified
by a ghost plan: the steps it takes and the result it returns. Its `ensures`
says the trace grows by exactly those steps, the expiry moves as those
requests make it move, and the plan's result is returned. Lemmas then state
what the plans promise: no write before a failed check, the backup before the
PUT, a deployment only for the first match, one request per page.

Pagination is modelled by a ghost `walk`: the pages the controller gives
along the chain of next links. `IsWalk`/`IsSearch` say that the walk is what
the controller answers and where the loop stops. The loops decrease the
number of pages left.

## Model

| member | source | states |
|---|---|---|
| Utils.Exception.ToString | utils.py:12-13 | the string form is `broke_thing` rendered, `" -> "`, then the message; for SiteCodeError it is `"<site_code> -> <message>"`, for StatusCodeError `"<status_code> -> <message>"` |
| Utils.StatusCodeErrorRoundTrip | utils.py:25-31 | the string form of a StatusCodeError splits at its first arrow back into the decimal status code and the message |
| Utils.SiteCodeErrorRoundTrip | utils.py:16-22 | for any site code without spaces (the invalid codes the exception reports included), the string form of a SiteCodeError splits back into the site code and the message |
| Utils.IsAlphaString | utils.py:45 | `isalpha()`: true exactly for a non-empty string of letters |
| Utils.ValidateSiteCode | utils.py:43-48 | true exactly when the code has five characters, all letters; otherwise false, never an error (the empty string is false) |
| Utils.CheckIpOverlap | utils.py:34-40 | true exactly when some address occurs in both lists |
| Utils.CheckIpOverlapSymmetric | utils.py:37-40 | the overlap test does not depend on the order of its arguments |
| Utils.CheckIpOverlapOnSets | utils.py:37-40 | only which addresses occur matters, not their order or repetition |
| Utils.CheckIpOverlapEmpty | utils.py:37-40 | an empty list overlaps with nothing |
| Api.HostEntryFor | devices/fmc.py:380-385 | the entry for one address has name and value equal to the address, type "Host" and description "Added via REST API" |
| Api.HostEntries | devices/fmc.py:335-346 | one entry per address, in input order, each the entry for that address |
| Api.CreateBulkRequestBody | devices/fmc.py:331-346 | the loop appends exactly the entries of the addresses, in order (the same code is fmc.py:204-219) |
| Api.Checked | devices/fmc.py:74-77 | a response is returned exactly when its status is within 200-299; otherwise StatusCodeError with that status and the response text |
| Api.RepeatReadOnly | devices/fmc.py:355-357 | repeating a read-only listing, once per checked address, still writes nothing |
| Session.HeaderAt | devices/fmc.py:190-200 | the header holds the access token, and the refresh token too exactly when the tracked expiry is strictly before now (at the expiry instant, access only) |
| Session.ExpireAfter | devices/fmc.py:193-194 | past the expiry the new expiry is now plus thirty minutes; otherwise it is unchanged |
| Session.Advance | devices/fmc.py:190-200 | after an operation that sent requests, an expiry that had passed is now plus thirty minutes and one that had not is unchanged, so it is at least now; with no request it is unchanged |
| Paging.WalkSteps | devices/fmc.py:172-186 | a listing makes one request per page |
| Paging.WalkRequests | devices/fmc.py:172-186 | the first request is the first call with its limit; each later one is a GET of the previous page's `next` link with no query parameters |
| Paging.WalkReadOnly | devices/fmc.py:174 | a listing only reads: every step is a GET |
| Paging.WalkEndsWithoutNext | devices/fmc.py:182-186 | a listing that did not fail stops at its first page without a `next` link, and every earlier page had one |
| Paging.Record | devices/fmc.py:179-180 | recording a page's items gives the index of all items seen so far followed by that page's items |
| Paging.IndexKeys | devices/fmc.py:179-180 | the inventory has a key for every name on any page, and no other key |
| Paging.IndexLastWins | devices/fmc.py:179-180 | each name maps to the value of the last item carrying that name |
| Paging.FirstIndex | devices/fmc.py:468-473 | the position of the first occurrence of a name; none exactly when the name does not occur |
| Paging.MatchOnPage | devices/fmc.py:305-309 | the inner search loop returns the position of the first item on the page with the name |
| Paging.FoundId | devices/fmc.py:305-315 | a search's error passes through; a found item gives its id; nothing found gives None |
| Paging.PassedOverPages | devices/fmc.py:310-313 | no page a search moves past carries the name |
| Paging.SearchFindsFirst | devices/fmc.py:298-315 | a search returns the first item with the name over all pages in order, and that item is on the last page fetched |
| Paging.SearchOnLast | devices/fmc.py:304-315 | a search's outcome is decided by the page it stops at: that page's error, else its first match, else nothing |
| Paging.SearchNoneExhausted | devices/fmc.py:310-315 | a search finds nothing only after a page without `next`, with the name on no page |
| Groups.GroupIps | devices/fmc.py:248-259 | the object names in order, then the literal values in order; length is objects plus literals; a missing field fails |
| Groups.PluckAll | devices/fmc.py:253-254 | one loop of `get_netgrp_ips`: the field of every element in order, or an error at the first element without it |
| Groups.CollectIps | devices/fmc.py:251-259 | the two loops compute exactly GroupIps of the document |
| Groups.WithBackupFields | devices/fmc.py:430-432 | the backup is the fetched group with `backup_timestamp` and `backup_uuid` set and every other field as fetched |
| Groups.AppendObjects | devices/fmc.py:443-444 | the append loop adds the new objects to `objects` in order, failing only when there is something to append and no `objects` list |
| Groups.MergedBody | devices/fmc.py:438-444 | the PUT body is the group without metadata, links and backup fields, with the new objects appended to `objects` in order and every other field, `literals` included, unchanged; a missing metadata or links field fails |
| Groups.StrippedStamps | devices/fmc.py:431-441 | stamping and then popping the four fields gives the fetched group without the server fields |
| Groups.MergeKeepsDuplicates | devices/fmc.py:443-444 | merging keeps every member as a prefix and adds one more occurrence of an object that is already a member |
| Groups.ExistingHostEntry | devices/fmc.py:414-419 | the appended host is the fetched host without links, metadata and value, every other field unchanged |
| DevicesFmc.AdderFmc.constructor | devices/fmc.py:36-52 | the session holds the issued tokens and domain, the base path of the domain, and an expiry thirty minutes after now |
| DevicesFmc.AdderFmc.GetAuthHeader | devices/fmc.py:190-200 | the header and new expiry follow HeaderAt and ExpireAfter: both tokens and a pushed expiry exactly when the expiry is past |
| DevicesFmc.AdderFmc.Get | devices/fmc.py:55-91 | one GET to the override URL or the host plus path, recorded in the trace; the response is returned exactly on a 2xx status, else StatusCodeError |
| DevicesFmc.AdderFmc.Post | devices/fmc.py:93-127 | the same rule for one POST of the body |
| DevicesFmc.AdderFmc.Put | devices/fmc.py:129-163 | the same rule for one PUT of the body |
| DevicesFmc.AdderFmc.GetPage | devices/fmc.py:172-177 | after the requests for pages before n, fetching page n adds exactly that page's request to them, and gets that page of the walk, checked; the loop goes on exactly when a page follows |
| DevicesFmc.AdderFmc.GetAllHosts | devices/fmc.py:165-188 | one request per page of the walk, in order; the name-to-id index of all items, or the error of the page that ended the walk |
| DevicesFmc.AdderFmc.CheckHostExists | devices/fmc.py:491-500 | one full inventory listing; HostAlreadyExists exactly when the name is in the inventory, else true |
| DevicesFmc.AdderFmc.CheckAddresses | devices/fmc.py:355-360 | one inventory listing per address, in order, stopping at the first address that fails its check, with that failure |
| DevicesFmc.AdderFmc.CreateHostObjects | devices/fmc.py:348-408 | the checks, then one POST (bulk for more than one address, single for one), then the created references; an empty list fails with IndexError |
| DevicesFmc.AdderFmc.CreateWritesOnlyWhenAllNew | devices/fmc.py:355-391 | creation writes exactly when the list is non-empty and every address is missing from the inventory; the write is the last step and nothing before it writes |
| DevicesFmc.AdderFmc.CreateAbortsBeforeWrites | devices/fmc.py:355-360 | an address already in the inventory makes creation fail with HostAlreadyExists and no write |
| DevicesFmc.AdderFmc.SingleCreateReturnsObject | devices/fmc.py:398-405 | a single new address gives back the one object the reply describes, after its POST |
| DevicesFmc.AdderFmc.SearchPage | devices/fmc.py:227-232 | fetching page n of a search sends its request and gets that page checked; the search goes on exactly when a page follows |
| DevicesFmc.AdderFmc.FindByName | devices/fmc.py:298-315 | the search loop requests the pages of the search in order and returns SearchResult: the first item named so, or nothing after the last page |
| DevicesFmc.AdderFmc.GetNetgroupUuid | devices/fmc.py:298-315 | the id of the first group with the name, or None after a page without `next` |
| DevicesFmc.AdderFmc.GetNetgroupByUuid | devices/fmc.py:281-291 | one checked GET of the group |
| DevicesFmc.AdderFmc.GetNetgroupByName | devices/fmc.py:261-279 | the search, then one checked GET of the group found; None when no group has the name |
| DevicesFmc.AdderFmc.GetHostByUuid | devices/fmc.py:244-246 | one checked GET of the host |
| DevicesFmc.AdderFmc.GetHostByName | devices/fmc.py:221-242 | a discarded first GET of the listing, the search, then a GET of the host found; HostNotFound when no object has the name |
| DevicesFmc.AdderFmc.GetNetgrpIps | devices/fmc.py:248-259 | the group's object names then literal values, or the error of a body that is not an object |
| DevicesFmc.AdderFmc.UpdateObjectGroup | devices/fmc.py:422-452 | GET, the backup when it could be written, then the PUT of the merged body; the checked response or the first error |
| DevicesFmc.AdderFmc.StripAndAppend | devices/fmc.py:438-444 | popping the four fields and appending the objects gives MergedBody of the fetched group |
| DevicesFmc.AdderFmc.BackupOnlyAddsItsStep | devices/fmc.py:430-437 | a failed backup write changes nothing else: the same requests in the same order and the same result; a written backup sits between the GET and the PUT |
| DevicesFmc.AdderFmc.MergePutsMergedGroup | devices/fmc.py:438-452 | the group is written back exactly when it was fetched and could be merged, with the merged body, as the last step |
| DevicesFmc.AdderFmc.UpdateGroupFromExistingHost | devices/fmc.py:410-420 | the host lookup, then a group update appending exactly one entry: the host without links, metadata and value |
| DevicesFmc.AdderFmc.GetDeployableDevices | devices/fmc.py:209-219 | one checked GET of the deployable devices, expanded, limit 100 |
| DevicesFmc.AdderFmc.DeployToDevice | devices/fmc.py:454-489 | the listing, then one checked POST for the first listed device with the name; FirewallNotDeployable when none has it |
| DevicesFmc.AdderFmc.DeployWritesOnlyForFirstMatch | devices/fmc.py:466-481 | a POST is sent exactly when the listing names the device, for the first such entry; otherwise FirewallNotDeployable and no write |
| DevicesFmc.DeploymentFor | devices/fmc.py:457-471 | the deployment body carries the device's version, its id alone in `deviceList`, forceDeploy and ignoreWarning true |
| DevicesFmc.ChecksOkIffAllNew | devices/fmc.py:355-360 | the checks pass exactly when the inventory was read and holds none of the addresses; else the first known address raises HostAlreadyExists |
| DevicesFmc.Verdict | devices/fmc.py:491-500 | true exactly when the inventory was read and lacks the name; HostAlreadyExists when it has it; a listing error passes through |
| DevicesFmc.CreatedRefs | devices/fmc.py:393-405 | after a bulk create, the reply's items; after a single create, the one object of the reply; a non-2xx status raises StatusCodeError; a 2xx body that does not decode fails with NotJson |
| Fmc.AdderFmc.constructor | fmc.py:35-51 | the session holds the issued tokens, the domain, the configured group and an expiry thirty minutes after now |
| Fmc.AdderFmc.GetAuthHeader | fmc.py:72-80 | the same expiry rule as the checking client |
| Fmc.AdderFmc.Get | fmc.py:82-108 | one GET recorded in the trace; the response is returned whatever its status |
| Fmc.AdderFmc.Post | fmc.py:110-136 | one POST, its response returned whatever its status |
| Fmc.AdderFmc.Put | fmc.py:138-164 | one PUT, its response returned whatever its status |
| Fmc.AdderFmc.GetNetgrpIps | fmc.py:166-179 | one GET of the configured group; its object names then literal values |
| Fmc.AdderFmc.GetPage | fmc.py:190-191 | after the requests for pages before n, fetching page n adds exactly its request, and gets that page, unchecked |
| Fmc.AdderFmc.GetAllHosts | fmc.py:181-202 | one request per page, whatever the statuses; the name-to-self-link index of all items |
| Fmc.AdderFmc.CreateHostObjects | fmc.py:221-259 | one POST with no check (bulk for more than one address); then the reply's items; on a non-2xx status SomethingBroke, or NotJson when the error body does not decode; NotJson too for a 2xx body that does not decode |
| Fmc.AdderFmc.CreatePostsUnchecked | fmc.py:221-247 | for any non-empty list the only step is the creation POST; it succeeds exactly on a 2xx reply listing items |
| Fmc.AdderFmc.SingleCreateFailsAfterPost | fmc.py:239-253 | a single address is posted as one object; a 2xx reply describing that object without `items` still fails after the POST |
| Fmc.AdderFmc.GetDeployableDevices | fmc.py:281-297 | one GET of the deployable devices, expanded; one entry per item with name, device id and version, same count and order |
| Fmc.AdderFmc.DeployOne | fmc.py:307-329 | one listed device gets one POST per data-centre name it carries, and those responses |
| Fmc.AdderFmc.DeployEach | fmc.py:307-331 | the POSTs of every matching entry in listing order; for each target, the response of its last entry, or None |
| Fmc.AdderFmc.DeployToDevices | fmc.py:299-331 | the listing, then those POSTs; the pair of last responses |
| Fmc.AdderFmc.DeployPostsTargets | fmc.py:307-329 | every POST deploys a listed entry named like one of the two targets; with no such entry nothing is sent |
| Fmc.AdderFmc.DeployPostsPrefix | fmc.py:307-329 | the POSTs for the first entries of the listing come first among the POSTs for the whole listing |
| Fmc.AdderFmc.DeployPostsEveryTarget | fmc.py:307-329 | every listed entry named like either target gets its POST, right after the POSTs of the entries listed before it |
| Fmc.Flattened | fmc.py:289-296 | one reference per item, same order: name, device id and version |
| Fmc.DeploymentFor | fmc.py:309-317 | the body carries the version and the id alone, forced, ignoring warnings, with no description |
| Fmc.LastNamed | fmc.py:307-331 | the last entry with the name, so the last POST's response is the one kept; none exactly when no entry has it |
| Fmc.CreatedItems | fmc.py:249-257 | a body that does not decode fails with NotJson on either path (the error path decodes it for printing before raising); otherwise a non-2xx status raises SomethingBroke about the response; a 2xx reply without items fails; else the reply's items, one reference each, in reply order |
| Ipam.StripMask | devices/netbox.py:58 | the output is the address with exactly its last three characters removed (empty when shorter) |
| Ipam.StripMasks | devices/netbox.py:58 | one stripped address per collected one, in order |
| Ipam.StripMaskTwoDigitMask | netbox.py:37 | an address with a two-digit mask comes back without the mask |
| Ipam.StripMaskOneDigitMask | netbox.py:37 | a one-digit mask takes the last character of the address with it |
| Ipam.StripMaskThreeDigitMask | devices/netbox.py:58 | a three-digit mask leaves the slash behind |
| DevicesNetbox.RouterAddrs | devices/netbox.py:45-57 | at most two addresses per router |
| DevicesNetbox.RouterAddrsFound | devices/netbox.py:45-57 | a router's addresses are exactly those of its lookups that found a record, in lookup order: dia1's, then dia2's (dia2 asked only after dia1 was found) |
| DevicesNetbox.BothFoundKeepsBoth | devices/netbox.py:45-47 | a router whose two lookups both find a record gives both addresses, dia1's first |
| DevicesNetbox.Collected | devices/netbox.py:44-57 | at most two addresses per router visited |
| DevicesNetbox.GetDiaIpAddrs | devices/netbox.py:37-60 | the lookups made router by router, dia1 before dia2; the addresses found, in lookup order, stripped; never an error |
| DevicesNetbox.CollectedIsFound | devices/netbox.py:44-57 | over any list of routers, the collected addresses are exactly those of the lookups made that found a record, in lookup order |
| DevicesNetbox.CollectedPerRouter | devices/netbox.py:44-57 | wr-1's addresses then wr-2's, each router's independent of the other's failures |
| DevicesNetbox.AskedRouters | devices/netbox.py:41-47 | only `<site>-wr-1` and `<site>-wr-2` are asked about, wr-1's dia1 first, and each router's dia1 always |
| DevicesNetbox.AtMostFour | devices/netbox.py:44-60 | at most four addresses come back |
| DevicesNetbox.AllFoundInOrder | devices/netbox.py:44-58 | when every lookup finds a record, exactly four addresses in the order wr-1 dia1, wr-1 dia2, wr-2 dia1, wr-2 dia2 |
| DevicesNetbox.Dia2FailureKeepsDia1 | devices/netbox.py:45-52 | a failed dia2 lookup keeps the router's dia1 address |
| DevicesNetbox.Dia1FailureSkipsRouter | devices/netbox.py:45-52 | a failed dia1 lookup skips the router; its dia2 is not asked for |
| Netbox.DiaQueries | netbox.py:30-35 | two queries per router |
| Netbox.FirstMiss | netbox.py:33-35 | the first failing lookup: none exactly when every lookup succeeds |
| Netbox.GetDiaIpAddrs | netbox.py:26-38 | the lookups up to the first failure; all addresses stripped, or the exception of the first failed lookup |
| Netbox.SiteQueries | netbox.py:30-35 | the queries are wr-1 dia1, wr-1 dia2, wr-2 dia1, wr-2 dia2 |
| Netbox.AllOrNothing | netbox.py:33-37 | a list comes back exactly when all four lookups succeed, and then holds the four addresses in lookup order |
| Netbox.FailureStopsAtFirstMiss | netbox.py:33-35 | a failure raises the exception of the first failed lookup, which is the last lookup made |

## Left out

- Transport: the `requests` calls, `verify=False`, and the JSON decoding of bodies. The controller is a function from request to response, one per response shape the clients read; a body that does not decode to the shape read is the model's `NotJson`/`Malformed` outcome.
- Listing pages and the deployables listing: a body that does not decode and a decoded body without `items` are one case in the model (no page), reported as `Malformed("items")`. Python raises a decode error for the first and a KeyError for the second; the model does not tell them apart. Group bodies and creation replies do keep the two apart (`NotJson` against `Malformed`).
- Each operation sees one fixed controller, so the same request gets the same reply within it. The per-address inventory listings of `check_host_exists` and the discarded first GET of `get_host_by_name` therefore see the same pages as the calls after them. Changes made by other clients during an operation are not modelled.
- Authentication: `get_tokens` and `get_creds` (`input`, `getpass`). The constructors take the issued tokens and the domain as parameters.
- Configuration (`ConfigParser` reads, the `FMC_HOST`/`DFW_FTD`/`ORD_FTD`/group-id constants) and logging. The constructors take these values as parameters, and logging has no effect in the model.
- The auth header does not appear in the trace. Requests are recorded by verb, URL, query parameters and body. The header's rule is stated by `GetAuthHeader` and `Session.HeaderAt`.
- The clock: `datetime.now()` is one integer `now` per operation. The model does not capture an expiry that passes in the middle of one operation.
- `uuid.uuid1()` and the backup timestamp are parameters. The backup file write is a `Backup` step in the trace plus a flag saying whether the write succeeded.
- The printing done by `pprint(r.json())` on the failure path of `fmc.py` `create_host_objects` is left out. Its decoding of the body is modelled: a body that does not decode fails with `NotJson` there.
- A page without a `paging` key: the model's pages have an optional `next` link and always carry the paging envelope, so the KeyError from a page with no envelope is not modelled.
- Replies are typed (`Page`, `CreateReply`, `DeployableItem`, `JsonObject`). A reply item without `name`, `id` or `type` is not representable, so the KeyErrors from such items are not modelled.
- Server chains that never stop: a listing or search whose controller keeps giving `next` links forever does not terminate in the source. The model takes the finite walk the controller gives as a ghost parameter.
- Utils.IsAlphaString: ASCII letters only. Python's `isalpha()` also accepts other Unicode letters.
- `get_deployable_devices` is a single GET with no pagination, as in the code.
- `get_vlan_3` (both netbox files) is a thin wrapper over the IPAM library's records and is not part of this model.
- The IPAM library's `get` raising for a query that matches several records is not part of this model. Only a found record, no record and a failed request are modelled.
- `adder.py` (command-line dispatch) and `devices/sros.py` (constants) are not part of this model.
- The exceptions `HostAlreadyExistsWarning`, `HostNotFoundWarning` and `FirewallNotDeployableWarning` are distinct `Error` outcomes. They have no class hierarchy.
- Ipam.StripMask: the model cuts three characters off, as the code does. For an address whose mask is not two digits this is not the unmasked address (see `StripMaskOneDigitMask`, `StripMaskThreeDigitMask`).

## Findings

| source | as written | input that shows it | evidently intended | confidence | as-written member | corrected member |
|---|---|---|---|---|---|---|
| fmc.py:239-253 | after a single-address create, the host list is read from the reply's `items` | `create_host_objects(["10.0.0.1"])` with a 2xx reply describing the one created object, which has no `items` | read the created object's own name, id and type for a single create, as devices/fmc.py:398-405 does | not executed | Fmc.AdderFmc.SingleCreateFailsAfterPost | DevicesFmc.AdderFmc.SingleCreateReturnsObject |
