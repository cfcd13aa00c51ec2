# Foulkon HTTP layer: proxy configuration, route reconciliation and group handlers

This project models two sequential pieces of the HTTP layer of the Foulkon
authorization service and proves properties about them.

- **The proxy server** (`http/server.go`). `Configuration` rewrites the server record before
  it listens. It defaults the address to `":https"` or `":http"`, adds the ALPN identifier
  `"http/1.1"` (section 6 of RFC 7301) when it is missing, and loads the TLS key pair.
  The reload function runs one reconciliation step. It fetches the proxy resources. On a
  fetch error it changes nothing. It compares the result structurally with the stored list,
  and when they differ it stores the raw list and publishes a new route table with one route
  per resource. An empty `Url` is registered at `"/"`. `NewProxy` and `NewWorker` build the
  listen address as `Host + ":" + Port`.
- **The group handlers** (`http/group.go`). `createGroupFromRequest` builds the group's path
  and its URN, `urn:iws:iam:<org>:group/<path>/<name>`. `handleCreateGroup` refuses an
  undecodable body or a blank `Name`/`Path` without calling the group API, and turns any
  API error into an internal error. `handleGetGroup` maps the not-found code to not-found and
  every other code of the API's error type to an internal error; an error of any other type
  makes its type assertion panic.

Everything is modelled with immutable datatypes and pure functions. The external calls are
parameters:

- the key-pair loader is a function of the certificate and key file names;
- the resource fetch is the `Result` it returned;
- the group API calls are functions of their arguments;
- the JSON body is already decoded, with `None` meaning decoding failed;
- the generated group ID is an arbitrary string.

The router is modelled as the ordered list of routes it was given. `Proxy.Lookup` gives the
meaning of that list: the first route registered for a method and path.

Modules: `Common` (Option, Result), `Strings` (Go's `strings.TrimSpace` with `unicode.IsSpace`
whitespace, character search), `Proxy` (`http/server.go`) and `Groups` (`http/group.go`).

Points of the code's behaviour worth knowing:

- In TLS mode the key pair is loaded **every time**, even when certificates were injected.
  The inner condition `!configHasCert || certFile != "" || keyFile != ""` always holds,
  because the outer guard already requires one of the file names.
- A failed first fetch in `NewProxy` is not fatal. The server is built with no handler.
- An empty fetched list is not published while the stored list is also empty, which is the
  case at start-up. The lists compare equal, so the handler stays unset.
- The handlers' test file expects statuses the handlers never produce, such as 403/400 from
  get-group, and 201/409 from create-group. The model follows the handlers.

## Model

| member | source | states |
|---|---|---|
| Proxy.StrSliceContains | http/server.go:192-199 | the loop returns true exactly when `s` is an element of `ss` |
| Proxy.AppendIfAbsent | http/server.go:68-70 | "http/1.1" ends up in the list; the old list stays a prefix; nothing changes if it was present, otherwise exactly one entry is added; its multiplicity becomes max(1, old) and no other protocol's multiplicity changes |
| Proxy.Configuration | http/server.go:62-89 | a non-empty address is kept; an empty one becomes ":https" in TLS mode and ":http" otherwise; in TLS mode "http/1.1" is appended only if absent, the certificates become exactly the one loaded key pair (replacing injected ones) and the loader's error is returned; in cleartext mode there is no error and the TLS configuration is untouched; nothing else changes |
| Proxy.ConfigurationIdempotent | http/server.go:62-89 | after a successful Configuration, running it again with the same loader is a successful no-op |
| Proxy.Normalize | http/server.go:181-184 | an empty Url becomes exactly "/", a non-empty Url is kept, so the registered resource never has an empty Url; no other field changes |
| Proxy.BuildRoutes | http/server.go:180-187 | one route per fetched resource, in order, with the same method; the path is the Url, or "/" when the Url is empty, never ""; the handler serves the resource with that path as its Url and otherwise unchanged |
| Proxy.FetchedResourceServed | http/server.go:180-187 | every fetched resource not shadowed by an earlier one with the same method and path is what the table serves for its method at its registered path |
| Proxy.EmptyUrlServedAtRoot | http/server.go:181-185 | a fetched resource with an empty Url is served at "/" unless an earlier resource took that method at "" or "/" |
| Proxy.NothingServedAtEmptyPath | http/server.go:181-185 | no published table serves anything at the empty path |
| Proxy.Reconcile | http/server.go:160-189 | on a fetch error, and when the fetched list equals the stored one, the server is unchanged; otherwise the stored list becomes exactly the fetched list (raw empty Urls kept) and the table for it is published; only these two fields ever change; the stored list and published table stay consistent |
| Proxy.ReconcileIdempotent | http/server.go:172-187 | a second reconcile with the same fetch result is a no-op |
| Proxy.ReconcilePublishesFetched | http/server.go:172-187 | from a consistent state, after a successful fetch the handler serves exactly the table built from the fetched list (unless nothing was ever published and the fetch was empty) |
| Proxy.ReconcileAllTracksLastFetch | http/server.go:166-177 | over any run of reconciles, the stored list is what the last successful fetch returned, or the initial list if every fetch failed |
| Proxy.ReconcileAllConsistent | http/server.go:166-187 | over any run of reconciles, the published table stays the one built from the stored list |
| Proxy.ListenAddress | http/server.go:137 | the address is the host, one ':' and the port, for every host and port, so it is never empty; when the port has no ':', splitting the address at its last ':' gives back the host and the port |
| Proxy.NewProxy | http/server.go:127-144 | the address is Host ":" Port and is never empty; file names are copied; TLS starts empty; the first reconcile leaves a consistent state; a failed first fetch leaves no handler and an empty stored list, while a successful one stores the fetched list |
| Proxy.NewProxyAddrKept | http/server.go:137 | Configuration never replaces the address NewProxy built with a default |
| Proxy.NewWorker | http/server.go:147-156 | the worker's file names are copied and its address is Host ":" Port, never empty |
| Strings.TrimSpace | http/group.go:48-49 | the result is the slice of the input between its leading and trailing whitespace; it is empty exactly when the input is all whitespace; otherwise it starts and ends with non-whitespace |
| Groups.GroupPath | http/group.go:145 | the path is the requested path, '/', then the name, for every name; when the name has no '/', splitting the path at its last '/' gives back the requested path and the name |
| Groups.GroupUrn | http/group.go:146 | the URN is "urn:iws:iam:", the org, ":group/", then the path |
| Groups.CreateGroupFromRequest | http/group.go:144-156 | name and org are copied verbatim; the ID is the generated one; the path is Path "/" Name; the URN is built from org and path, starts with "urn:iws:iam:" and ends with "/" Name |
| Groups.GroupUrnRoundTrip | http/group.go:146 | for an org without ':', parsing the URN gives back the org and the path |
| Groups.CreatedGroupUrnDecodes | http/group.go:144-156 | a created group's URN determines its org, requested path and name (org without ':', name without '/') |
| Groups.DistinctRequestsDistinctUrns | http/group.go:144-156 | create requests differing in org, path or name get different URNs (org without ':', name without '/') |
| Groups.HandleCreateGroup | http/group.go:37-72 | the API is not called exactly when the body does not decode or Name or Path is all whitespace, and then the answer is bad request; otherwise the built group (copied name, org, ID, composed path and URN) is passed to AddGroup; any API error gives internal error, and a success gives OK with the returned group; no other response is possible |
| Groups.HandleGetGroup | http/group.go:78-106 | org and name go to GetGroupByName unchanged; the answer is OK with the group exactly when the call succeeds; not-found exactly for the not-found code; internal error exactly for any other code of the API's error type; the handler aborts exactly for an error of another type; never bad request |

## Left out

- `ProxyServer.Run` is not modelled. It holds the ticker goroutine, the single-slot reload
  channel, `net.Listen`, and the `Serve` re-arm loop (with its unsynchronised write to
  `err` and a `defer` inside the loop). All of this is concurrency and socket I/O. Only
  its call to the reload function is modelled, as `Proxy.Reconcile` and `Proxy.ReconcileAll`.
- The mutex around publication is not modelled. It only serialises writers, which a
  sequential model makes moot.
- `tls.LoadX509KeyPair` is a loader parameter. `pretty.Compare` is structural equality.
  A nil slice and an empty slice are the same `seq`, as the pretty-printer renders them alike.
- `httprouter` is not modelled beyond `Proxy.Lookup`. Route compilation, path parameters
  and method-not-allowed are left out. A fetched list with a duplicate (method, Url), or
  with a Url not starting with '/', makes the router panic, and nothing recovers that panic:
  from `NewProxy` it reaches the caller, and from the ticker goroutine of `Run` it ends the
  process. The model does not model that crash. `Proxy.Lookup` letting the first registered
  route win among duplicates is the model's own reading, not the router's behaviour.
- The case `TLSConfig == nil` is not modelled, because `NewProxy` always sets it. A
  `GetCertificate` callback is reduced to whether one is set.
- `ProxyHandler.HandleRequest` and the `Respond*` helpers are not part of this model.
  Responses are an outcome datatype without numeric status codes.
- `uuid.NewV4` is the group ID parameter.
- JSON decoding is an `Option`. The effect of the malformed `omitempty` tags is not modelled.
- Logging is not modelled.
- `NewWorker` also stores the given HTTP handler (`ws.Handler = h`). The handler is opaque
  to this model, so `Proxy.WorkerServer` has no handler field.
- `WorkerServer.Run` is network I/O and is not modelled. `WorkerServer.Configuration`
  returns nil without reading or changing the record, so it is not modelled either.
- The empty stub handlers (delete, list, update, members, policies) are not modelled.
  They have no behaviour.
- `refreshTime` is not modelled. It only feeds the ticker in `Run`.
- A nil group pointer returned by the group API without an error is not modelled.
  Groups are values.
- Groups.GroupByOrgAndNameNotFound: the code's actual string lives in the `api` package,
  which is not part of this model. The model gives it a placeholder value. Only its
  distinctness from other codes matters.
