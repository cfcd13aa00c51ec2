/**
 * The proxy server of the HTTP layer: how `Configuration` rewrites the
 * server record before it listens, how one reconciliation step replaces
 * the route table from the resources the authorization API returns, and
 * how the listen address is built from the configured host and port.
 *
 * External calls are parameters: the TLS key-pair loader is a function
 * of the certificate and key file names, and the resource fetch is the
 * result it produced. Routing is kept as the ordered list of routes
 * registered with the router.
 */
module Proxy {

  import opened Common
  import Strings

  /** One row of the resource table kept by the authorization API. */
  datatype ProxyResource = ProxyResource(
    id: string,
    host: string,
    url: string,
    httpMethod: string,
    urn: string,
    action: string)

  /** A route registered with the router, and the resource its handler serves. */
  datatype Route = Route(httpMethod: string, path: string, resource: ProxyResource)

  /** A route table; `Lookup` gives its meaning. */
  type RouteTable = seq<Route>

  /** Certificate material as returned by the key-pair loader. */
  datatype Certificate = Certificate(chain: seq<string>, privateKey: string)

  /** The part of the TLS configuration `Configuration` reads and writes. */
  datatype TlsConfig = TlsConfig(
    nextProtos: seq<string>,
    certificates: seq<Certificate>,
    hasGetCertificate: bool)

  /**
   * The proxy server record. `handler` is `None` while no route table has
   * been published (the server's handler is still nil).
   */
  datatype ProxyServer = ProxyServer(
    addr: string,
    certFile: string,
    keyFile: string,
    tls: TlsConfig,
    currentResources: seq<ProxyResource>,
    handler: Option<RouteTable>)

  /** What the key-pair loader returns: a certificate and maybe an error. */
  datatype KeyPairLoad = KeyPairLoad(certificate: Certificate, err: Option<string>)

  /** The server record after `Configuration`, and the error it reports. */
  datatype Configured = Configured(server: ProxyServer, err: Option<string>)

  /** The outcome of one call to fetch the proxy resources. */
  type Fetch = Result<seq<ProxyResource>, string>

  /** Host, port and TLS file names of a proxy or worker configuration. */
  datatype Endpoint = Endpoint(host: string, port: string, certFile: string, keyFile: string)

  /** The worker server record as `NewWorker` builds it. */
  datatype WorkerServer = WorkerServer(certFile: string, keyFile: string, addr: string)

  /** The ALPN protocol identifier of HTTP/1.1 (section 6 of RFC 7301). */
  const Http11: string := "http/1.1"
  const HttpsDefaultAddr: string := ":https"
  const HttpDefaultAddr: string := ":http"
  /** The path registered for a resource whose Url is empty. */
  const RootPath: string := "/"

  /** The loop of `strSliceContains`: is `s` one of the elements of `ss`? */
  method StrSliceContains(ss: seq<string>, s: string) returns (found: bool)
    ensures found <==> s in ss
  {
    var i := 0;
    while i < |ss|
      invariant 0 <= i <= |ss|
      invariant s !in ss[..i]
    {
      if ss[i] == s {
        return true;
      }
      i := i + 1;
    }
    assert ss[..i] == ss;
    return false;
  }

  // ---------------------------------------------------------------------
  // Configuration
  // ---------------------------------------------------------------------

  /** TLS is requested when a certificate or a key file is configured. */
  predicate TlsRequested(s: ProxyServer) {
    s.certFile != "" || s.keyFile != ""
  }

  /**
   * Append `p` to `protos` unless it is already there: the existing list
   * stays a prefix, `p` ends up in it exactly as often as before but at
   * least once, so a duplicate-free list stays duplicate-free.
   */
  function AppendIfAbsent(protos: seq<string>, p: string): (r: seq<string>)
    ensures p in r
    ensures |protos| <= |r| <= |protos| + 1 && r[..|protos|] == protos
    ensures p in protos ==> r == protos
    ensures multiset(r)[p] == if p in protos then multiset(protos)[p] else 1
    ensures forall q :: q != p ==> multiset(r)[q] == multiset(protos)[q]
  {
    if p in protos then protos
    else
      assert multiset(protos)[p] == 0;
      protos + [p]
  }

  /** `addr`, or `default` when `addr` is empty. */
  function DefaultAddr(addr: string, default: string): string {
    if addr == "" then default else addr
  }

  /**
   * `ProxyServer.Configuration`. With a certificate or key file set, the
   * address defaults to ":https", "http/1.1" is added to the ALPN list
   * when absent and a key pair is loaded; a load failure is returned with
   * the server as it stands at that point (its certificate list already
   * holds the loader's result). Otherwise the address defaults to ":http".
   */
  function Configuration(s: ProxyServer, loadKeyPair: (string, string) -> KeyPairLoad): (c: Configured)
    // address defaulting
    ensures s.addr != "" ==> c.server.addr == s.addr
    ensures s.addr == "" && TlsRequested(s) ==> c.server.addr == HttpsDefaultAddr
    ensures s.addr == "" && !TlsRequested(s) ==> c.server.addr == HttpDefaultAddr
    // ALPN list
    ensures TlsRequested(s) ==>
      && Http11 in c.server.tls.nextProtos
      && (Http11 in s.tls.nextProtos ==> c.server.tls.nextProtos == s.tls.nextProtos)
      && (Http11 !in s.tls.nextProtos ==> c.server.tls.nextProtos == s.tls.nextProtos + [Http11])
    // key pair: always loaded in TLS mode, replacing injected certificates
    ensures TlsRequested(s) ==>
      && c.server.tls.certificates == [loadKeyPair(s.certFile, s.keyFile).certificate]
      && c.err == loadKeyPair(s.certFile, s.keyFile).err
    // cleartext: success, TLS configuration untouched
    ensures !TlsRequested(s) ==> c.err == None && c.server.tls == s.tls
    // the rest of the record is left alone
    ensures c.server.tls.hasGetCertificate == s.tls.hasGetCertificate
    ensures c.server.(addr := s.addr, tls := s.tls) == s
  {
    if TlsRequested(s) then
      var s1 := s.(addr := DefaultAddr(s.addr, HttpsDefaultAddr));
      var s2 := s1.(tls := s1.tls.(nextProtos := AppendIfAbsent(s1.tls.nextProtos, Http11)));
      var configHasCert := |s2.tls.certificates| > 0 || s2.tls.hasGetCertificate;
      if !configHasCert || s2.certFile != "" || s2.keyFile != "" then
        var load := loadKeyPair(s2.certFile, s2.keyFile);
        var s3 := s2.(tls := s2.tls.(certificates := [load.certificate]));
        if load.err.Some? then Configured(s3, load.err)
        else Configured(s3.(addr := DefaultAddr(s3.addr, HttpDefaultAddr)), None)
      else
        Configured(s2.(addr := DefaultAddr(s2.addr, HttpDefaultAddr)), None)
    else
      Configured(s.(addr := DefaultAddr(s.addr, HttpDefaultAddr)), None)
  }

  /**
   * A second `Configuration` with the same loader changes nothing more:
   * the address is already set, "http/1.1" is already listed and the
   * certificate list is loaded again to the same single entry.
   */
  lemma ConfigurationIdempotent(s: ProxyServer, loadKeyPair: (string, string) -> KeyPairLoad)
    requires Configuration(s, loadKeyPair).err == None
    ensures var s' := Configuration(s, loadKeyPair).server;
            Configuration(s', loadKeyPair) == Configured(s', None)
  {
  }

  // ---------------------------------------------------------------------
  // Route table and reconciliation
  // ---------------------------------------------------------------------

  /** The resource as registered: an empty Url becomes the root path. */
  function Normalize(res: ProxyResource): (n: ProxyResource)
    ensures n.url != ""
    ensures res.url == "" ==> n.url == RootPath
    ensures n.(url := res.url) == res
    ensures res.url != "" ==> n == res
  {
    if res.url == "" then res.(url := RootPath) else res
  }

  /** The route `router.Handle` registers for one resource. */
  function RouteFor(res: ProxyResource): Route {
    var n := Normalize(res);
    Route(n.httpMethod, n.url, n)
  }

  /**
   * The routes registered for a fetched list, one per resource and in
   * order; an empty Url is registered at "/", both as the route path and
   * in the copy of the resource its handler serves.
   */
  function BuildRoutes(rs: seq<ProxyResource>): (table: RouteTable)
    ensures |table| == |rs|
    ensures forall i :: 0 <= i < |rs| ==>
      && table[i].httpMethod == rs[i].httpMethod
      && table[i].path != ""
      && table[i].path == table[i].resource.url
      && table[i].resource.(url := rs[i].url) == rs[i]
      && (rs[i].url != "" ==> table[i].path == rs[i].url)
      && (rs[i].url == "" ==> table[i].path == RootPath)
  {
    if |rs| == 0 then []
    else [RouteFor(rs[0])] + BuildRoutes(rs[1..])
  }

  /** The resource served for `httpMethod` and `path`: the first route registered for them. */
  function Lookup(table: RouteTable, httpMethod: string, path: string): Option<ProxyResource> {
    if |table| == 0 then None
    else if table[0].httpMethod == httpMethod && table[0].path == path then Some(table[0].resource)
    else Lookup(table[1..], httpMethod, path)
  }

  /** A route matched by no earlier route is the one `Lookup` finds. */
  lemma {:induction false} LookupFindsFirst(table: RouteTable, k: nat, httpMethod: string, path: string)
    requires k < |table| && table[k].httpMethod == httpMethod && table[k].path == path
    requires forall j :: 0 <= j < k ==> !(table[j].httpMethod == httpMethod && table[j].path == path)
    ensures Lookup(table, httpMethod, path) == Some(table[k].resource)
  {
    if k > 0 {
      LookupFindsFirst(table[1..], k - 1, httpMethod, path);
    }
  }

  /** `Lookup` finds nothing when no route matches. */
  lemma {:induction false} LookupMisses(table: RouteTable, httpMethod: string, path: string)
    requires forall j :: 0 <= j < |table| ==> !(table[j].httpMethod == httpMethod && table[j].path == path)
    ensures Lookup(table, httpMethod, path) == None
  {
    if |table| > 0 {
      LookupMisses(table[1..], httpMethod, path);
    }
  }

  /**
   * Every fetched resource is served, in its registered form, for its
   * method at its registered path, unless an earlier resource already
   * took that method and path.
   */
  lemma FetchedResourceServed(rs: seq<ProxyResource>, i: nat)
    requires i < |rs|
    requires forall j :: 0 <= j < i && rs[j].httpMethod == rs[i].httpMethod ==>
               Normalize(rs[j]).url != Normalize(rs[i]).url
    ensures Lookup(BuildRoutes(rs), rs[i].httpMethod, Normalize(rs[i]).url) == Some(Normalize(rs[i]))
  {
    LookupFindsFirst(BuildRoutes(rs), i, rs[i].httpMethod, Normalize(rs[i]).url);
  }

  /**
   * Empty-path normalisation: a fetched resource with an empty Url is
   * served at "/", unless an earlier resource already took that route.
   */
  lemma EmptyUrlServedAtRoot(rs: seq<ProxyResource>, i: nat)
    requires i < |rs| && rs[i].url == ""
    requires forall j :: 0 <= j < i && rs[j].httpMethod == rs[i].httpMethod ==>
               rs[j].url != "" && rs[j].url != RootPath
    ensures Lookup(BuildRoutes(rs), rs[i].httpMethod, RootPath) == Some(rs[i].(url := RootPath))
  {
    FetchedResourceServed(rs, i);
  }

  /** No route is ever registered at the empty path. */
  lemma NothingServedAtEmptyPath(rs: seq<ProxyResource>, httpMethod: string)
    ensures Lookup(BuildRoutes(rs), httpMethod, "") == None
  {
    LookupMisses(BuildRoutes(rs), httpMethod, "");
  }

  /**
   * The published table always matches the stored resources, or nothing
   * has been published and nothing is stored.
   */
  predicate Consistent(s: ProxyServer) {
    || (s.handler == None && s.currentResources == [])
    || s.handler == Some(BuildRoutes(s.currentResources))
  }

  /**
   * One run of the reload function: on a fetch error nothing changes; a
   * list structurally equal to the stored one changes nothing; otherwise
   * the raw list is stored and a new table with one route per resource is
   * published. Only the stored list and the handler ever change.
   */
  function Reconcile(s: ProxyServer, fetch: Fetch): (s': ProxyServer)
    ensures fetch.Failure? ==> s' == s
    ensures fetch.Success? && fetch.value == s.currentResources ==> s' == s
    ensures fetch.Success? && fetch.value != s.currentResources ==>
      && s'.currentResources == fetch.value
      && s'.handler == Some(BuildRoutes(fetch.value))
    ensures s'.(currentResources := s.currentResources, handler := s.handler) == s
    ensures Consistent(s) ==> Consistent(s')
  {
    match fetch
    case Failure(_) => s
    case Success(result) =>
      if result == s.currentResources then s
      else s.(currentResources := result, handler := Some(BuildRoutes(result)))
  }

  /** A reconcile with the result just applied is a no-op. */
  lemma ReconcileIdempotent(s: ProxyServer, fetch: Fetch)
    ensures Reconcile(Reconcile(s, fetch), fetch) == Reconcile(s, fetch)
  {
  }

  /** After a successful fetch the published table serves exactly the fetched list. */
  lemma ReconcilePublishesFetched(s: ProxyServer, fetched: seq<ProxyResource>)
    requires Consistent(s)
    requires fetched != [] || s.handler.Some?
    ensures Reconcile(s, Success(fetched)).handler == Some(BuildRoutes(fetched))
  {
  }

  /** The reconciliation steps of a run, applied in order. */
  function ReconcileAll(s: ProxyServer, fetches: seq<Fetch>): ProxyServer {
    if |fetches| == 0 then s
    else Reconcile(ReconcileAll(s, fetches[..|fetches| - 1]), fetches[|fetches| - 1])
  }

  /** The list returned by the last successful fetch, if any. */
  function LastFetched(fetches: seq<Fetch>): Option<seq<ProxyResource>> {
    if |fetches| == 0 then None
    else match fetches[|fetches| - 1]
      case Success(result) => Some(result)
      case Failure(_) => LastFetched(fetches[..|fetches| - 1])
  }

  /**
   * Over any run, the stored list is the one the last successful fetch
   * returned; failed fetches keep whatever was stored before.
   */
  lemma {:induction false} ReconcileAllTracksLastFetch(s: ProxyServer, fetches: seq<Fetch>)
    ensures ReconcileAll(s, fetches).currentResources ==
      match LastFetched(fetches)
      case Some(result) => result
      case None => s.currentResources
  {
    if |fetches| > 0 {
      ReconcileAllTracksLastFetch(s, fetches[..|fetches| - 1]);
    }
  }

  /** Over any run the published table stays in step with the stored list. */
  lemma {:induction false} ReconcileAllConsistent(s: ProxyServer, fetches: seq<Fetch>)
    requires Consistent(s)
    ensures Consistent(ReconcileAll(s, fetches))
  {
    if |fetches| > 0 {
      ReconcileAllConsistent(s, fetches[..|fetches| - 1]);
    }
  }

  // ---------------------------------------------------------------------
  // Construction
  // ---------------------------------------------------------------------

  /**
   * The listen address `Host + ":" + Port`. It is never empty, and a port
   * without ':' can be read back from it together with the host.
   */
  function ListenAddress(host: string, port: string): (addr: string)
    ensures |addr| == |host| + 1 + |port| && addr != ""
    ensures addr[..|host|] == host && addr[|host|] == ':' && addr[|host| + 1..] == port
    ensures ':' !in port ==> Strings.SplitAtLast(addr, ':') == Some((host, port))
  {
    var addr := Strings.Join(host, ':', port);
    assert ':' !in port ==> Strings.SplitAtLast(addr, ':') == Some((host, port)) by {
      if ':' !in port { Strings.SplitAtLastJoin(host, ':', port); }
    }
    addr
  }

  /** The TLS configuration `NewProxy` starts from. */
  const EmptyTls: TlsConfig := TlsConfig([], [], false)

  /**
   * `NewProxy`: the address is `Host + ":" + Port`, TLS starts empty and
   * the reload function runs once. A failed first fetch does not stop the
   * construction; the server then has no handler.
   */
  function NewProxy(proxy: Endpoint, initialFetch: Fetch): (s: ProxyServer)
    ensures s.addr == ListenAddress(proxy.host, proxy.port) && s.addr != ""
    ensures s.certFile == proxy.certFile && s.keyFile == proxy.keyFile
    ensures s.tls == EmptyTls
    ensures Consistent(s)
    ensures initialFetch.Failure? ==> s.handler == None && s.currentResources == []
    ensures initialFetch.Success? ==> s.currentResources == initialFetch.value
  {
    var initial := ProxyServer(ListenAddress(proxy.host, proxy.port), proxy.certFile, proxy.keyFile,
                             EmptyTls, [], None);
    Reconcile(initial, initialFetch)
  }

  /** The address `NewProxy` builds is never replaced by a default. */
  lemma NewProxyAddrKept(proxy: Endpoint, initialFetch: Fetch, loadKeyPair: (string, string) -> KeyPairLoad)
    ensures Configuration(NewProxy(proxy, initialFetch), loadKeyPair).server.addr
         == ListenAddress(proxy.host, proxy.port)
  {
  }

  /** `NewWorker`: file names copied, address `Host + ":" + Port`. */
  function NewWorker(worker: Endpoint): (w: WorkerServer)
    ensures w.certFile == worker.certFile && w.keyFile == worker.keyFile
    ensures w.addr == ListenAddress(worker.host, worker.port) && w.addr != ""
  {
    WorkerServer(worker.certFile, worker.keyFile, ListenAddress(worker.host, worker.port))
  }
}
