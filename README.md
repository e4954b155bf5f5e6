# vSphere CPI: subnet provisioning and datastore file transfer

This project models two parts of the vSphere cloud provider interface in Dafny
and proves properties of them.

**Subnet definition and provisioning.** `Subnet.build` validates a subnet
definition, a string-keyed map holding `range`, `gateway` and a
`cloud_properties` map. `Subnet#create_infrastructure` then provisions the
subnet on an NSX-T controller as a five-step saga:

1. create a T1 router;
2. enable its route advertisement;
3. attach it to the T0 router;
4. create a logical switch;
5. attach the switch to the T1 router.

When a step raises, the resources created so far are deleted and the call fails
with `Failed to create subnet: <cause>`. The implementation of `Subnet` is not
part of this model. The model follows the unit tests' assertions.

- `ipv4.dfy` reads and writes dotted-quad addresses and CIDR blocks (section 3.1 of
  RFC 4632).
- `subnet.dfy` holds the validator.
- `nsxt.dfy` models the controller the tests mock: a class whose router and
  switch sets and call log change with every call, specified by a pure function.
- `subnet_saga.dfy` runs the saga as a method on that class. The method is proved
  equal to a pure function of the controller's old state, and the lemmas there
  state the tests' promises about that function.

**File transfer.** `FileProvider` (`file_provider.dfy`) fetches and uploads
datastore files over HTTPS:

- It picks the first healthy host among the datastore's mounts.
- It builds the file's `/folder/` URL.
- It requests a generic service ticket for that URL.
- It sends the request under a bounded retry loop, which classifies every
  response.

The health test at lines 18 and 43 of `file_provider.rb` assigns `'connected'`
to the host's connection state rather than comparing it. The model keeps that
behaviour: connection state never filters a host, and the selected host's
runtime record is written. `http.dfy` models the HTTP client and the session
manager as classes that log what they receive and answer from fixed
response and ticket sequences.

`text.dfy` (decimal numerals, splitting and joining) and `wrappers.dfy`
(`Option`, `Result`) are shared helpers.

## Model

| member | source | states |
|---|---|---|
| Ipv4.ParseFormat | src/vsphere_cpi/spec/unit/cloud/vsphere/subnet_spec.rb:22 | a dotted-quad address reads back as the address it was written from |
| Ipv4.Parse | src/vsphere_cpi/spec/unit/cloud/vsphere/subnet_spec.rb:121-144 | an accepted gateway text is exactly four dot-separated pieces made of digits and dots |
| Ipv4.ParseCidr | src/vsphere_cpi/spec/unit/cloud/vsphere/subnet_spec.rb:97-119 | a range text is a block or an out-of-bounds netmask exactly when it is an address, one '/', and a decimal number; a block carries that address and prefix; an out-of-bounds netmask is the number written, above 32 |
| Ipv4.ParseCidrFormat | src/vsphere_cpi/spec/unit/cloud/vsphere/subnet_spec.rb:21 | a CIDR block `a.b.c.d/n` with n at most 32 reads back as that block |
| Ipv4.NetmaskRejected | src/vsphere_cpi/spec/unit/cloud/vsphere/subnet_spec.rb:114-119 | a well-formed address with a prefix length above 32 is refused as an out-of-bounds netmask carrying that length |
| Ipv4.SuffixedAddressRejected | src/vsphere_cpi/spec/unit/cloud/vsphere/subnet_spec.rb:139-144 | any text containing '/' is not a bare address |
| SubnetDefinition.CheckCloudProperties | src/vsphere_cpi/spec/unit/cloud/vsphere/subnet_spec.rb:28-95 | succeeds exactly when `cloud_properties` is a non-empty map with non-empty `t0_router_id`, `edge_cluster_id` and `transport_zone_id`; the result carries those values and the optional names (nil when absent); otherwise the error is the cloud-properties message or `<key> cloud property can not be empty` |
| SubnetDefinition.CheckRange | src/vsphere_cpi/spec/unit/cloud/vsphere/subnet_spec.rb:97-119 | succeeds exactly when `range` is a non-empty string that parses as a CIDR block, returning that block; otherwise the CIDR-range message or the netmask message for a prefix above 32 |
| SubnetDefinition.CheckGateway | src/vsphere_cpi/spec/unit/cloud/vsphere/subnet_spec.rb:121-144 | succeeds exactly when `gateway` is a non-empty string that parses as a bare address; otherwise the gateway message |
| SubnetDefinition.Build | src/vsphere_cpi/spec/unit/cloud/vsphere/subnet_spec.rb:27-145 | succeeds exactly when the cloud properties, range and gateway all check; the subnet is built from the three checked parts and has non-empty required ids; every failure is one of the documented messages |
| SubnetDefinition.BuildEncode | src/vsphere_cpi/spec/unit/cloud/vsphere/subnet_spec.rb:8-25 | every valid subnet is rebuilt unchanged from the definition it is written as |
| SubnetDefinition.CloudPropertiesRequired | src/vsphere_cpi/spec/unit/cloud/vsphere/subnet_spec.rb:28-44 | absent cloud properties, a string (such as '') in their place, or an empty map fails with `cloud_properties must be provided` |
| SubnetDefinition.RequiredPropertyRejected | src/vsphere_cpi/spec/unit/cloud/vsphere/subnet_spec.rb:46-95 | a missing or empty required property, the others being present, fails with the message naming that property |
| SubnetDefinition.MissingRangeRejected | src/vsphere_cpi/spec/unit/cloud/vsphere/subnet_spec.rb:97-112 | a missing or empty range fails with the CIDR-range message |
| SubnetDefinition.RangeNetmaskRejected | src/vsphere_cpi/spec/unit/cloud/vsphere/subnet_spec.rb:114-119 | a range whose prefix length n exceeds 32 fails with `Netmask, n, is out of bounds for IPv4.` |
| SubnetDefinition.GatewayRejected | src/vsphere_cpi/spec/unit/cloud/vsphere/subnet_spec.rb:121-144 | with a good range, a missing, empty or '/'-suffixed gateway fails with the gateway message |
| SubnetDefinition.ExampleBuilds | src/vsphere_cpi/spec/unit/cloud/vsphere/subnet_spec.rb:171-179 | the tests' definition builds to 192.168.111.0/24, gateway 192.168.111.1 and the given ids; without `t1_name`/`switch_name` both names are nil |
| SubnetDefinition.ExampleNetmask33 | src/vsphere_cpi/spec/unit/cloud/vsphere/subnet_spec.rb:114-119 | `192.168.111.111/33` fails with `Netmask, 33, is out of bounds for IPv4.` |
| SubnetDefinition.ExampleSuffixedGateway | src/vsphere_cpi/spec/unit/cloud/vsphere/subnet_spec.rb:139-144 | gateway `192.168.111.111/31` fails with the gateway message |
| Nsxt.Invoke | src/vsphere_cpi/spec/unit/cloud/vsphere/subnet_spec.rb:147-165 | the controller double logs every call; a call raises exactly when its operation is set to fail, with that error, and then only the log changes; a successful create adds the next id to its own set, leaves the other set alone and advances the id; a successful delete removes its id from its own set only; other calls change only the log; fresh ids stay above every live id |
| Nsxt.Controller.Perform | src/vsphere_cpi/spec/unit/cloud/vsphere/subnet_spec.rb:156-165 | the controller's new state and error are those of `Invoke` on its old state |
| Nsxt.Controller.CreateT1Router | src/vsphere_cpi/spec/unit/cloud/vsphere/subnet_spec.rb:156-157 | logs the call; returns the router under the next id, displayed by its name or its id, or the configured error |
| Nsxt.Controller.EnableRouteAdvertisement | src/vsphere_cpi/spec/unit/cloud/vsphere/subnet_spec.rb:158-159 | logs the call and raises the configured error, if any |
| Nsxt.Controller.AttachT1ToT0 | src/vsphere_cpi/spec/unit/cloud/vsphere/subnet_spec.rb:160-161 | logs the call and raises the configured error, if any |
| Nsxt.Controller.CreateLogicalSwitch | src/vsphere_cpi/spec/unit/cloud/vsphere/subnet_spec.rb:162-163 | logs the call; returns the switch under the next id, displayed by its name or its id, or the configured error |
| Nsxt.Controller.AttachSwitchToT1 | src/vsphere_cpi/spec/unit/cloud/vsphere/subnet_spec.rb:164-165 | logs the call and raises the configured error, if any |
| Nsxt.Controller.DeleteLogicalSwitch | src/vsphere_cpi/spec/unit/cloud/vsphere/subnet_spec.rb:250-251 | logs the call and removes the switch unless the delete raises |
| Nsxt.Controller.DeleteT1Router | src/vsphere_cpi/spec/unit/cloud/vsphere/subnet_spec.rb:248-249 | logs the call and removes the router unless the delete raises |
| SubnetSaga.CreateInfrastructure | src/vsphere_cpi/spec/unit/cloud/vsphere/subnet_spec.rb:147-257 | the controller's new state and the result are those of the saga run from its old state; the controller stays valid |
| SubnetSaga.Saga | src/vsphere_cpi/spec/unit/cloud/vsphere/subnet_spec.rb:147-257 | the reference run of the saga: it only appends to the call log, keeps fresh ids above live ones, and on success returns a switch that is live afterwards and was not before |
| SubnetSaga.SagaSucceedsIff | src/vsphere_cpi/spec/unit/cloud/vsphere/subnet_spec.rb:155-169 | the run succeeds exactly when none of the five steps raises |
| SubnetSaga.SagaSuccess | src/vsphere_cpi/spec/unit/cloud/vsphere/subnet_spec.rb:155-169 | a successful run makes exactly the five calls in order with the router's and switch's ids, returns the created switch, and adds one router and one switch |
| SubnetSaga.SagaFailureMessage | src/vsphere_cpi/spec/unit/cloud/vsphere/subnet_spec.rb:204-255 | every failure reads `Failed to create subnet: <cause>`, the cause being the error of one of the five steps, never of a compensating delete (the per-step lemmas name which step) |
| SubnetSaga.SagaFailureLeavesNothing | src/vsphere_cpi/spec/unit/cloud/vsphere/subnet_spec.rb:235-255 | when the compensating deletes succeed, a failed run leaves the live routers and switches as they were |
| SubnetSaga.CreateRouterFails | src/vsphere_cpi/spec/unit/cloud/vsphere/subnet_spec.rb:156-157 | assumption: when creating the router raises, nothing else is called |
| SubnetSaga.RouteAdvertisementFails | src/vsphere_cpi/spec/unit/cloud/vsphere/subnet_spec.rb:209-220 | enabling route advertisement raises: the router is deleted, no switch is created, the call fails |
| SubnetSaga.AttachToT0Fails | src/vsphere_cpi/spec/unit/cloud/vsphere/subnet_spec.rb:221-234 | attaching to T0 raises: the router is deleted, no switch is created, the call fails |
| SubnetSaga.CreateSwitchFails | src/vsphere_cpi/spec/unit/cloud/vsphere/subnet_spec.rb:162-163 | assumption: when creating the switch raises, the router is deleted and the call fails |
| SubnetSaga.AttachSwitchFails | src/vsphere_cpi/spec/unit/cloud/vsphere/subnet_spec.rb:235-255 | attaching the switch raises: after the five calls the switch and then the router are deleted, and the call fails |
| Http.HttpClient.Send | src/vsphere_cpi/lib/cloud/vsphere/file_provider.rb:93 | the client logs the request and answers the n-th request with the n-th response |
| Http.SessionManager.AcquireGenericServiceTicket | src/vsphere_cpi/lib/cloud/vsphere/file_provider.rb:67-75 | the issuer logs the (url, method) spec and returns the n-th ticket |
| FileTransfer.FirstQualifying | src/vsphere_cpi/lib/cloud/vsphere/file_provider.rb:16-19 | the index of the first mount whose host is not in maintenance mode and is powered on; none exactly when no mount qualifies |
| FileTransfer.Qualifies | src/vsphere_cpi/lib/cloud/vsphere/file_provider.rb:18 | the `detect` test of lines 18 and 43: not in maintenance mode and powered on; connection state is assigned, not compared (stated through `FirstQualifying` and `SelectHost`) |
| FileTransfer.SelectHost | src/vsphere_cpi/lib/cloud/vsphere/file_provider.rb:16-19 | returns the host of the first qualifying mount (the same search at lines 41-44), writes 'connected' into that host's connection state only, and changes no other runtime field |
| FileTransfer.SplitDatastoreUrl | src/vsphere_cpi/lib/cloud/vsphere/file_provider.rb:21-22 | a URL it accepts is the datastore URL of the host, path and escaped name it returns |
| FileTransfer.DatastoreUrl | src/vsphere_cpi/lib/cloud/vsphere/file_provider.rb:21-22 | the URL of lines 21-22 and 46-47, `https://<host>/folder/<path>?dsName=<escaped name>` (stated through `SplitDatastoreUrl` and `SplitDatastoreUrlInverts`) |
| FileTransfer.SplitDatastoreUrlInverts | src/vsphere_cpi/lib/cloud/vsphere/file_provider.rb:21-22 | `https://<host>/folder/<path>?dsName=<escaped name>` determines host, path and name when the host has no '/' and the path no '?' |
| FileTransfer.RequestHeaders | src/vsphere_cpi/lib/cloud/vsphere/file_provider.rb:78-89 | the keys are the caller's plus `Content-Length` when there is a body; the caller's values win; otherwise `Content-Length` is the body's byte length; with no body the caller's headers are unchanged |
| FileTransfer.MakeRequest | src/vsphere_cpi/lib/cloud/vsphere/file_provider.rb:91-100 | GET, POST and PUT give the matching request with the given URL and headers (GET without a body); any other type gives `Invalid request type: <type>.` |
| FileTransfer.Classify | src/vsphere_cpi/lib/cloud/vsphere/file_provider.rb:105-113 | no error exactly when the code is below 400 or is 404 with not-found allowed; a response exactly when the code is below 400; otherwise the error names the URL and code |
| FileTransfer.Retry | src/vsphere_cpi/lib/cloud/vsphere/file_provider.rb:102-114 | the reference retry loop: between 1 and budget attempts; success ends on an accepted attempt; failure only after the full budget, the last attempt rejected |
| FileTransfer.RetryAcceptsFirst | src/vsphere_cpi/lib/cloud/vsphere/file_provider.rb:102-114 | after k rejected attempts the first accepted one ends the loop with its result after k+1 attempts |
| FileTransfer.RetryRejectsAll | src/vsphere_cpi/lib/cloud/vsphere/file_provider.rb:102-114 | when every attempt is rejected, all of them are made and the last error is reported |
| FileTransfer.RetryFailsOnlyWhenAllRejected | src/vsphere_cpi/lib/cloud/vsphere/file_provider.rb:102-114 | the loop makes between 1 and budget attempts, and fails only after budget rejected ones |
| FileTransfer.Transfer | src/vsphere_cpi/lib/cloud/vsphere/file_provider.rb:77-117 | `do_request`: nothing is sent exactly when the request type is refused, and then the error is the invalid-type error; never more than budget requests |
| FileTransfer.Resend | src/vsphere_cpi/lib/cloud/vsphere/file_provider.rb:102-114 | the retry loop around one request: 1 to budget copies of that request are sent; it fails exactly when the full budget was sent and the last response was rejected |
| FileTransfer.InvalidRequestTypeSendsNothing | src/vsphere_cpi/lib/cloud/vsphere/file_provider.rb:91-100 | an unknown request type fails with `Invalid request type: <type>.` before any request is sent |
| FileTransfer.NotFoundIsNil | src/vsphere_cpi/lib/cloud/vsphere/file_provider.rb:28-32 | a fetch whose first response is 404 returns nil without error after one request |
| FileTransfer.TransferFailure | src/vsphere_cpi/lib/cloud/vsphere/file_provider.rb:102-116 | a failed transfer sent budget requests, each answered with a code of 400 or more that was not an allowed 404, and reports the last one's error |
| FileTransfer.TransferResendsSameRequest | src/vsphere_cpi/lib/cloud/vsphere/file_provider.rb:102-103 | every attempt sends the same request, at least once and at most budget times |
| FileTransfer.UploadNotFoundFails | src/vsphere_cpi/lib/cloud/vsphere/file_provider.rb:53-54 | an upload's 404 is not special-cased: all-404 responses make the upload fail after budget requests |
| FileTransfer.UploadHeaders | src/vsphere_cpi/lib/cloud/vsphere/file_provider.rb:53-54 | an upload carries exactly the payload length, the octet-stream type and the ticket cookie |
| FileTransfer.FileProvider.constructor | src/vsphere_cpi/lib/cloud/vsphere/file_provider.rb:7-12 | the provider keeps its HTTP client, vCenter host, session manager, attempt budget and escape function |
| FileTransfer.FileProvider.TryRequest | src/vsphere_cpi/lib/cloud/vsphere/file_provider.rb:102-114 | what the request log gains and the result are those of the retry loop over the client's responses |
| FileTransfer.FileProvider.DoRequest | src/vsphere_cpi/lib/cloud/vsphere/file_provider.rb:77-117 | what the request log gains and the result are those of the transfer: header merge, dispatch, then the retry loop |
| FileTransfer.FileProvider.FetchFileFromDatastore | src/vsphere_cpi/lib/cloud/vsphere/file_provider.rb:14-37 | with no qualifying host it fails with no ticket and no request; otherwise it requests one `httpGet` ticket for the host's URL, sends the GET with the ticket headers and not-found allowed, and returns nil or the body; only the selected host's connection state is written ('connected'), and no host's maintenance or power state changes |
| FileTransfer.FileProvider.UploadFileToDatastore | src/vsphere_cpi/lib/cloud/vsphere/file_provider.rb:39-56 | with no qualifying host it fails with no ticket and no request; otherwise it requests one `httpPut` ticket, sends the PUT with the payload and ticket headers, and fails on any code of 400 or more; only the selected host's connection state is written ('connected'), and no host's maintenance or power state changes |
| FileTransfer.FileProvider.UploadFileToUrl | src/vsphere_cpi/lib/cloud/vsphere/file_provider.rb:58-63 | sends the caller's POST with no host selection and no ticket; the outcome is the transfer's |

## Left out

- Logging (`logger.info`, `warn`, `error`) has no behavioural content.
- The `Subnet` class itself is not part of this model. `SubnetDefinition.Build` checks the cloud properties first, then the range, then the gateway; each test breaks one field, so this order is an assumption.
- `Ipv4.ParseCidr`: the CIDR library is not part of this model. The range must be in prefix notation, octets are 1 to 3 decimal digits, the address is checked before the prefix bound, a block keeps the address as written (host bits are not cleared), and the netmask message is only known from the tests' pattern.
- `SubnetDefinition.Build` does not check that the gateway lies inside the range; no test asks for it.
- `Nsxt.IpSubnet` records only the range and gateway it is built from; the structure of `NSXT::IPSubnet` is not part of this model.
- `Nsxt.Invoke`: ids are natural numbers from a counter, and an unnamed router or switch is displayed under its id, as the tests' doubles do.
- `SubnetSaga.CreateRouterFails` and `SubnetSaga.CreateSwitchFails` are assumptions: no unit test raises from those steps.
- `SubnetSaga.CreateInfrastructure` attempts both compensating deletes even if the first raises, and drops their errors; the tests only show that both are called.
- `FileTransfer.Retry`: the retryer class is not part of this model. It is modelled as up to `maxAttempts` attempts with no delay. A failure carries the last attempt's message.
- Connection failures and other exceptions of the HTTP client are not modelled; every request gets a response.
- `FileTransfer.RequestHeaders`: the File / `bytesize` / `length` choice of body size is collapsed to the byte length of a byte sequence.
- `URI.escape` is a parameter of the provider (`escape`), and ticket ids come from the session manager's fixed sequence.
- `vcenter_host` and `datacenter_name` are kept but never read, as in the source.
- `FileTransfer.Datastore`: `datastore.host` (fetch) and `datastore.mob.host` (upload) are the same list of mounts in the model.
- `FileTransfer.SelectHost`: with no qualifying host, Ruby raises `NoMethodError` from `.key` on nil. The model returns `NoHealthyHost` instead, whose message is the Ruby one.
- The ticket is requested once per transfer, before the retry loop, as the code does, not once per attempt.
- The integration specs (`client_spec.rb`, `cpi_extension_spec.rb`) and `ci/config.rb` are live-environment tests and pipeline tables with nothing to model.
