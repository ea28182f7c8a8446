# CNAME-rewriting endpoint source (external-dns `serviceCnameSource`)

external-dns publishes DNS records ("endpoints") for cluster services. The
`serviceCnameSource` is a decorator around another endpoint source. It asks the
wrapped source for its endpoints. If that fails, it returns the same error.
Otherwise it walks the list in order and reverse-resolves (PTR lookup) the
first target of each endpoint. When the lookup fails, the endpoint is left as
it is. When it succeeds, the first target becomes the first name found, with
one trailing root label `"."` removed, and the record type becomes `CNAME`.
The list itself, its objects and their order, is returned unchanged.
Registering a change handler is forwarded to the wrapped source.

The model has three modules:

- `Strings` (`strings.dfy`): Go's `strings.HasSuffix` and `strings.TrimSuffix`.
- `ServiceCname` (`service_cname.dfy`): the rest.
  - `Endpoint` is a class with fields `dnsName`, `targets` and `recordType`, updated in place.
  - `Resolver` stands for `net.LookupAddr`. Its answers are a fixed oracle `answers: string -> LookupResult`, and a ghost log `queried` records every address looked up.
  - `Source` stands for the wrapped source. `produced` is what its `Endpoints` returns. A ghost log `handlers` records registered callbacks.
  - `ServiceCnameSource` is the decorator.
  - `Rewrite` specifies one endpoint's treatment; `Pass` specifies the whole loop over the list.
- `ServiceCnameScenarios` (`scenarios.dfy`): small worked inputs.

`Pass` is exact even when the list holds the same object twice. That object
is then visited twice, the second time with the fields the first visit left,
as the Go loop does. The per-index reading ("each endpoint is `Rewrite` of
itself") is proved as a lemma for lists with no repeated object.

## Model

| member | source | states |
|---|---|---|
| `Strings.TrimSuffix` | source/service_cname.go:71 | if the name ends in the suffix, the result followed by the suffix is the name; otherwise the result is the name itself |
| `Strings.TrimSuffixAppended` | source/service_cname.go:68-71 | trimming undoes appending: `TrimSuffix(s + suffix, suffix) == s` |
| `Strings.TrimSuffixRemovesOnlyOne` | source/service_cname.go:71 | only one occurrence is removed: a name ending in `".."` keeps one `"."` |
| `Strings.TrimDot` | source/service_cname.go:71 | for `"."`, the result is the name minus its last character if that is `'.'`, and the name unchanged otherwise |
| `ServiceCname.Rewrite` | source/service_cname.go:60-72 | lookup of `targets[0]` fails: endpoint unchanged. Lookup succeeds with names `n`: record type is CNAME, `targets[0]` is `n[0]` with one trailing `"."` dropped (or `n[0]` verbatim when none), and the DNS name, the target count and every later target are kept |
| `ServiceCname.Pass` | source/service_cname.go:59-73 | the pass keeps the set of endpoint objects and every endpoint's number of targets, so every endpoint still has a first target when the loop reaches it |
| `ServiceCname.PassStep` | source/service_cname.go:59-73 | one more loop turn looks up the current first target of the next endpoint, appends it to the lookup log and rewrites that endpoint |
| `ServiceCname.PassOutside` | source/service_cname.go:59-73 | an object not in the list is not changed by the pass |
| `ServiceCname.PassKeepsOtherFields` | source/service_cname.go:59-73 | after the pass every endpoint keeps its DNS name and every target after the first, and is either exactly as before or a CNAME record |
| `ServiceCname.PassLookupCount` | source/service_cname.go:59-62 | the pass makes exactly one lookup per listed endpoint, appended after the earlier lookups |
| `ServiceCname.PassDistinctAt` | source/service_cname.go:59-73 | with no object listed twice, every endpoint ends up as `Rewrite` of its own original fields ("rewrite or leave untouched", index by index) |
| `ServiceCname.PassLookupsDistinct` | source/service_cname.go:59-62 | with no object listed twice, lookup number `i` of the pass is the original first target of endpoint `i` |
| `ServiceCname.ResolveEndpoint` | source/service_cname.go:60-72 | one loop turn: one lookup of the endpoint's first target, then the endpoint's new fields are `Rewrite` of its old ones |
| `ServiceCname.RewriteAll` | source/service_cname.go:59-73 | the loop: the listed endpoints' new fields and the resolver's log are exactly what `Pass` computes from the old ones |
| `ServiceCname.ServiceCnameSource.Endpoints` | source/service_cname.go:53-76 | the result is the wrapped source's result itself. On error: no lookup, and no endpoint can change (the frame is empty). On success: the same list of the same objects in the same order, with fields and lookup log as `Pass` gives |
| `ServiceCname.ServiceCnameSource.AddEventHandler` | source/service_cname.go:78-81 | the wrapped source's handler log grows by exactly the given handler |
| `ServiceCname.ServiceCnameSource.constructor` | source/service_cname.go:43-50 | the decorator holds exactly the given client, namespace and wrapped source |
| `ServiceCname.NewServiceCnameSource` | source/service_cname.go:43-50 | returns a fresh decorator holding exactly the given collaborators, and no error |
| `ServiceCname.Resolver.LookupAddr` | source/service_cname.go:61 | returns the oracle's answer for the address and appends the address to the log |
| `ServiceCname.Source.Endpoints` | source/service_cname.go:54 | the wrapped source's production returns what it was given to produce |
| `ServiceCname.Source.AddEventHandler` | source/service_cname.go:80 | the wrapped source records the registered handler |
| `ServiceCnameScenarios.ResolvedEndpointBecomesCname` | source/service_cname.go:68-72 | `svc.example.com A 203.0.113.9`, whose address resolves to `svc-lb.cloudprovider.net.`, becomes `svc.example.com CNAME svc-lb.cloudprovider.net` |
| `ServiceCnameScenarios.UnresolvedEndpointUnchanged` | source/service_cname.go:61-66 | the same endpoint with a failing lookup is returned unchanged |
| `ServiceCnameScenarios.FailureDoesNotStopTheBatch` | source/service_cname.go:59-73 | two endpoints, first lookup failing and second succeeding: both addresses looked up in order, first untouched, second rewritten |
| `ServiceCnameScenarios.UpstreamErrorPropagates` | source/service_cname.go:54-57 | a wrapped source's error comes back unchanged and no lookup is made |

## Left out

- `net.LookupAddr` is not modelled. The PTR lookup (section 3.5 of RFC 1035) is network I/O, so it is an oracle fixed per `Resolver`. Two lookups of one address in one pass therefore get the same answer.
- That a successful lookup returns at least one name (`NamesNonEmpty`) and that every endpoint has at least one target are preconditions. The Go code would panic otherwise.
- Logging through logrus is left out. It is diagnostics only.
- `context.Context` is left out: no cancellation and no timeouts.
- The Kubernetes client is an opaque `KubeClient` object. It is stored but never read.
- The wrapped `Source` is an interface in Go. Here it is a concrete class that returns a preset result and records handlers. The decorator is not itself typed as a `Source`, since that would need traits.
- Handlers are identified by a `Handler` value, not as Go closures.
- `Endpoint` has only the three fields this code touches. `endpoint.Endpoint`'s other fields are not part of this model.
- `targets` is a `seq` field, so two endpoints that share one Go slice backing array are not modelled.
- Aliasing of endpoint objects across calls, and concurrent calls, are not modelled.
- `ServiceCname.ServiceCnameSource.Endpoints`: the per-index "rewrite or leave untouched" reading and the lookup of each original first target are not in the method's `ensures`. They hold for lists without a repeated object, and follow from its `Pass` postcondition by `PassDistinctAt` and `PassLookupsDistinct`.
