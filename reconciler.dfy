/**
 * One reconciliation cycle of the controller (`Capi2Argo.Reconcile` in
 * controllers/capi2argo_reconciler.go).
 *
 * Everything the cycle asks of the outside world is an input:
 *  - the answers of the collaborators not modelled here (`ValidateCapiNaming`,
 *    the Kubernetes client's `Get`, `ValidateCapiSecret`, `CapiCluster.Unmarshal`),
 *  - the outcome of the registry listing (a failed request, or a body that
 *    decoded to a `ClusterList` or failed to decode),
 *  - the outcome of the one mutating request, if one is sent,
 *  - `url.QueryEscape`, passed as the function `escape`.
 * The HTTP client becomes the sequence of requests the cycle hands to
 * `sendRequest`, in order. Since `sendRequest` never looks at the status
 * code, a request either is delivered or fails with an error building,
 * sending or reading it.
 */
module Reconciler {
  import opened Wrappers
  import opened Argo

  /** A Go `error`, by its message. */
  datatype Error = Error(message: string)

  /** What `json.Unmarshal` reports for the nil body of a failed GET. */
  const UnexpectedEndOfJson := Error("unexpected end of JSON input")

  /** `ctrl.Request`: the secret that changed. */
  datatype Request = Request(namespace: string, name: string)

  /** What the Kubernetes client's `Get` returned, with the checks run on a found secret. */
  datatype SecretFetch =
    | Found(typeCheck: Option<Error>, kubeConfig: Result<KubeConfig, Error>)
    | NotFound
    | FetchFailed(err: Error)

  /** The outcome of `GET /api/v1/clusters` followed by `json.Unmarshal`. */
  datatype ListResponse =
    | ListDelivered(decoded: Result<ClusterList, Error>)
    | ListSendFailed(err: Error)

  /** The outcome of `sendRequest` for a DELETE, POST or PUT. */
  datatype SendOutcome = Delivered | SendFailed(err: Error)

  /** The answers the outside world gives during one cycle. */
  datatype Environment = Environment(
    namingValid: bool,
    fetch: SecretFetch,
    list: ListResponse,
    mutation: SendOutcome)

  datatype HttpMethod = GET | POST | PUT | DELETE

  /** A request body: nil, or the JSON encoding of a cluster record. */
  datatype Body = NoBody | Json(cluster: ArgoCluster)

  datatype HttpRequest = HttpRequest(verb: HttpMethod, url: string, bearer: string, body: Body)

  /** How the cycle ends: `(ctrl.Result{}, nil)`, `(ctrl.Result{}, err)`, or a runtime panic. */
  datatype Outcome = Done | Failed(err: Error) | Panicked

  /** A whole cycle: how it ends and the requests it issued, in order. */
  datatype Cycle = Cycle(outcome: Outcome, requests: seq<HttpRequest>)

  function ClustersUrl(endpoint: string): string {
    "https://" + endpoint + "/api/v1/clusters"
  }

  function DeleteUrl(endpoint: string, namespace: string): string {
    ClustersUrl(endpoint) + "/" + namespace + "?id.type=name"
  }

  function UpdateUrl(endpoint: string, escapedServer: string): string {
    ClustersUrl(endpoint) + "/" + escapedServer
  }

  /** A mutating request ends the cycle with its send error, or with success. */
  function AfterSend(send: SendOutcome): Outcome {
    match send
    case Delivered => Done
    case SendFailed(e) => Failed(e)
  }

  predicate IsMutating(r: HttpRequest) {
    r.verb != GET
  }

  /** The number of DELETE, POST and PUT requests in a log. */
  function MutationCount(requests: seq<HttpRequest>): nat {
    if requests == [] then 0
    else MutationCount(requests[..|requests| - 1]) + (if IsMutating(requests[|requests| - 1]) then 1 else 0)
  }

  /** The built labels after the common labels are written over them. */
  function MergeLabels(labels: map<string, string>): map<string, string> {
    labels + ArgoCommonLabels()
  }

  /** A listed registration the controller may update for `server`. */
  predicate IsMatch(c: ArgoCluster, server: string) {
    c.clusterServer == server && LabelValue(c.clusterLabels, OwnedLabel) == "true"
  }

  /** The matching registration the scan ends with: the last one in listing order. */
  function LastMatch(clusters: seq<ArgoCluster>, server: string): Option<ArgoCluster> {
    if clusters == [] then None
    else if IsMatch(clusters[|clusters| - 1], server) then Some(clusters[|clusters| - 1])
    else LastMatch(clusters[..|clusters| - 1], server)
  }

  /** One of the three compared fields differs. */
  predicate NeedsUpdate(existing: ArgoCluster, built: ArgoCluster) {
    || existing.clusterName != built.clusterName
    || existing.clusterConfig.tlsClientConfig.caData != built.clusterConfig.tlsClientConfig.caData
    || existing.clusterConfig.tlsClientConfig.certData != built.clusterConfig.tlsClientConfig.certData
  }

  /** The existing registration with name, CA and certificate taken from the built one. */
  function Synced(existing: ArgoCluster, built: ArgoCluster): ArgoCluster {
    var tls := existing.clusterConfig.tlsClientConfig;
    var builtTls := built.clusterConfig.tlsClientConfig;
    existing.(clusterName := built.clusterName,
              clusterConfig := ArgoConfig(tls.(caData := builtTls.caData, certData := builtTls.certData)))
  }

  /** The CAPI cluster the controller parses out of the secret. */
  function SourceCluster(req: Request, k: KubeConfig): CapiCluster {
    CapiCluster(TrimSuffix(req.name, KubeconfigSuffix), req.namespace, k)
  }

  /** The registration the cycle builds: `NewArgoCluster` and the common labels. */
  function BuildTarget(cfg: Config, req: Request, k: KubeConfig): ArgoCluster
    requires HasPrimaryEntries(k)
  {
    var a := NewArgoCluster(SourceCluster(req, k), req.name, req.namespace, cfg);
    a.(clusterLabels := MergeLabels(a.clusterLabels))
  }

  function ListRequest(cfg: Config): HttpRequest {
    HttpRequest(GET, ClustersUrl(cfg.argoEndpoint), cfg.authToken, NoBody)
  }

  function DeleteRequest(cfg: Config, req: Request): HttpRequest {
    HttpRequest(DELETE, DeleteUrl(cfg.argoEndpoint, req.namespace), cfg.authToken, NoBody)
  }

  function CreateRequest(cfg: Config, built: ArgoCluster): HttpRequest {
    HttpRequest(POST, ClustersUrl(cfg.argoEndpoint), cfg.authToken, Json(built))
  }

  function UpdateRequest(cfg: Config, updated: ArgoCluster, escape: string -> string): HttpRequest {
    HttpRequest(PUT, UpdateUrl(cfg.argoEndpoint, escape(updated.clusterServer)), cfg.authToken, Json(updated))
  }

  /** The listing the cycle scans, or the error it returns instead. */
  function Listing(list: ListResponse): Result<ClusterList, Error> {
    match list
    case ListSendFailed(_) => Failure(UnexpectedEndOfJson)
    case ListDelivered(decoded) => decoded
  }

  /** The cycle once the registration is built: list, match, then create, update or nothing. */
  function SyncCycle(cfg: Config, built: ArgoCluster, env: Environment, escape: string -> string): Cycle {
    var get := ListRequest(cfg);
    match Listing(env.list)
    case Failure(e) => Cycle(Failed(e), [get])
    case Success(list) =>
      match LastMatch(list.clusters, built.clusterServer)
      case None => Cycle(AfterSend(env.mutation), [get, CreateRequest(cfg, built)])
      case Some(existing) =>
        if NeedsUpdate(existing, built) then
          Cycle(AfterSend(env.mutation), [get, UpdateRequest(cfg, Synced(existing, built), escape)])
        else
          Cycle(Done, [get])
  }

  /** The decision procedure of one reconciliation cycle, as a function of its inputs. */
  function Decide(cfg: Config, req: Request, env: Environment, escape: string -> string): Cycle {
    if !env.namingValid then Cycle(Done, [])
    else
      match env.fetch
      case FetchFailed(e) => Cycle(Failed(e), [])
      case NotFound =>
        if cfg.enableGarbageCollection then Cycle(AfterSend(env.mutation), [DeleteRequest(cfg, req)])
        else Cycle(Done, [])
      case Found(typeCheck, parsed) =>
        if typeCheck.Some? then Cycle(Failed(typeCheck.value), [])
        else if parsed.Failure? then Cycle(Failed(parsed.error), [])
        else if !HasPrimaryEntries(parsed.value) then Cycle(Panicked, [])
        else SyncCycle(cfg, BuildTarget(cfg, req, parsed.value), env, escape)
  }

  /**
   * The loop over `GetArgoCommonLabels()`: writes every entry of `entries`
   * over `labels`. Go visits the keys in an unspecified order; the result
   * is the same in every order.
   */
  method WriteLabels(labels: map<string, string>, entries: map<string, string>) returns (r: map<string, string>)
    ensures r == labels + entries
  {
    r := labels;
    var pending := entries.Keys;
    while pending != {}
      invariant pending <= entries.Keys
      invariant r.Keys == labels.Keys + (entries.Keys - pending)
      invariant forall k :: k in r ==> r[k] == (if k in entries && k !in pending then entries[k] else labels[k])
      decreases |pending|
    {
      var key :| key in pending;
      r := r[key := entries[key]];
      pending := pending - {key};
    }
  }

  /** The loop over the listing: remembers the last owned registration for `server`. */
  method ScanListing(clusters: seq<ArgoCluster>, server: string) returns (found: bool, existing: ArgoCluster)
    ensures found == LastMatch(clusters, server).Some?
    ensures found ==> existing == LastMatch(clusters, server).value
  {
    found := false;
    existing := ArgoCluster(NamespacedName("", ""), "", "", map[], ArgoConfig(ArgoTLS("", "", "")));
    for i := 0 to |clusters|
      invariant (if found then Some(existing) else None) == LastMatch(clusters[..i], server)
    {
      var cluster := clusters[i];
      if cluster.clusterServer == server {
        if LabelValue(cluster.clusterLabels, OwnedLabel) == "true" {
          found := true;
          existing := cluster;
        }
      }
      assert clusters[..i + 1][..i] == clusters[..i];
    }
    assert clusters[..|clusters|] == clusters;
  }

  /** The three field comparisons: copies each differing field and notes that one did. */
  method SyncFields(existing: ArgoCluster, built: ArgoCluster) returns (updated: ArgoCluster, changed: bool)
    ensures changed == NeedsUpdate(existing, built)
    ensures updated == Synced(existing, built)
  {
    updated := existing;
    changed := false;
    if updated.clusterName != built.clusterName {
      updated := updated.(clusterName := built.clusterName);
      changed := true;
    }
    var tls := updated.clusterConfig.tlsClientConfig;
    if tls.caData != built.clusterConfig.tlsClientConfig.caData {
      tls := tls.(caData := built.clusterConfig.tlsClientConfig.caData);
      updated := updated.(clusterConfig := ArgoConfig(tls));
      changed := true;
    }
    if tls.certData != built.clusterConfig.tlsClientConfig.certData {
      tls := tls.(certData := built.clusterConfig.tlsClientConfig.certData);
      updated := updated.(clusterConfig := ArgoConfig(tls));
      changed := true;
    }
  }

  /** `Capi2Argo.Reconcile`, step by step. */
  method Reconcile(cfg: Config, req: Request, env: Environment, escape: string -> string)
    returns (outcome: Outcome, issued: seq<HttpRequest>)
    ensures Cycle(outcome, issued) == Decide(cfg, req, env, escape)
  {
    if !env.namingValid {
      return Done, [];
    }
    var typeCheck: Option<Error>;
    var parsed: Result<KubeConfig, Error>;
    match env.fetch {
      case FetchFailed(e) =>
        return Failed(e), [];
      case NotFound =>
        if cfg.enableGarbageCollection {
          var del := HttpRequest(DELETE, DeleteUrl(cfg.argoEndpoint, req.namespace), cfg.authToken, NoBody);
          issued := [del];
          match env.mutation {
            case SendFailed(e) => return Failed(e), issued;
            case Delivered => return Done, issued;
          }
        }
        return Done, [];
      case Found(t, p) =>
        typeCheck, parsed := t, p;
    }
    if typeCheck.Some? {
      return Failed(typeCheck.value), [];
    }
    if parsed.Failure? {
      return Failed(parsed.error), [];
    }
    var kubeConfig := parsed.value;
    if |kubeConfig.clusters| == 0 || |kubeConfig.users| == 0 {
      // NewArgoCluster indexes the first cluster and the first user.
      return Panicked, [];
    }
    var capiCluster := CapiCluster(TrimSuffix(req.name, KubeconfigSuffix), req.namespace, kubeConfig);
    var argoCluster := NewArgoCluster(capiCluster, req.name, req.namespace, cfg);

    var labels := WriteLabels(argoCluster.clusterLabels, ArgoCommonLabels());
    argoCluster := argoCluster.(clusterLabels := labels);

    issued := [HttpRequest(GET, ClustersUrl(cfg.argoEndpoint), cfg.authToken, NoBody)];
    var clusterList: ClusterList;
    match env.list {
      case ListSendFailed(_) =>
        return Failed(UnexpectedEndOfJson), issued;
      case ListDelivered(decoded) =>
        if decoded.Failure? {
          return Failed(decoded.error), issued;
        }
        clusterList := decoded.value;
    }

    var found, existingCluster := ScanListing(clusterList.clusters, argoCluster.clusterServer);

    if !found {
      issued := issued + [HttpRequest(POST, ClustersUrl(cfg.argoEndpoint), cfg.authToken, Json(argoCluster))];
      outcome := AfterSend(env.mutation);
      return;
    }

    var changed;
    existingCluster, changed := SyncFields(existingCluster, argoCluster);
    if changed {
      var url := UpdateUrl(cfg.argoEndpoint, escape(existingCluster.clusterServer));
      issued := issued + [HttpRequest(PUT, url, cfg.authToken, Json(existingCluster))];
      outcome := AfterSend(env.mutation);
      return;
    }
    outcome := Done;
  }

  // ---------------------------------------------------------------------
  // Properties of the decision procedure
  // ---------------------------------------------------------------------

  /** The secret was fetched, passed the type check and parsed to `k`, which has a first cluster and user. */
  predicate Parsed(env: Environment, k: KubeConfig) {
    env.namingValid && env.fetch == Found(None, Success(k)) && HasPrimaryEntries(k)
  }

  /** `LastMatch` finds nothing exactly when no entry matches, and otherwise a matching entry with no match after it. */
  lemma {:induction false} LastMatchIsLast(clusters: seq<ArgoCluster>, server: string)
    ensures LastMatch(clusters, server).None? <==> forall i | 0 <= i < |clusters| :: !IsMatch(clusters[i], server)
    ensures LastMatch(clusters, server).Some? ==>
      exists i | 0 <= i < |clusters| ::
        && clusters[i] == LastMatch(clusters, server).value
        && IsMatch(clusters[i], server)
        && forall j | i < j < |clusters| :: !IsMatch(clusters[j], server)
  {
    if clusters != [] {
      var n := |clusters| - 1;
      var init := clusters[..n];
      LastMatchIsLast(init, server);
      assert forall i | 0 <= i < n :: init[i] == clusters[i];
      if !IsMatch(clusters[n], server) && LastMatch(init, server).Some? {
        var i :| 0 <= i < n && init[i] == LastMatch(init, server).value && IsMatch(init[i], server)
          && forall j | i < j < n :: !IsMatch(init[j], server);
        assert clusters[i] == LastMatch(clusters, server).value;
      }
    }
  }

  /** An entry that matches with no match after it is the one the scan ends with. */
  lemma {:induction false} LastMatchAt(clusters: seq<ArgoCluster>, server: string, i: nat)
    requires i < |clusters| && IsMatch(clusters[i], server)
    requires forall j | i < j < |clusters| :: !IsMatch(clusters[j], server)
    ensures LastMatch(clusters, server) == Some(clusters[i])
  {
    var n := |clusters| - 1;
    if i < n {
      var init := clusters[..n];
      assert forall j | i < j < n :: init[j] == clusters[j];
      LastMatchAt(init, server, i);
    }
  }

  /** A failed naming gate, a fetch error, a missing secret or a malformed secret ends the cycle before any listing. */
  lemma EarlyExits(cfg: Config, req: Request, env: Environment, escape: string -> string)
    ensures var c := Decide(cfg, req, env, escape);
      && (!env.namingValid ==> c == Cycle(Done, []))
      && (env.namingValid && env.fetch.FetchFailed? ==> c == Cycle(Failed(env.fetch.err), []))
      && (env.namingValid && env.fetch.NotFound? && !cfg.enableGarbageCollection ==> c == Cycle(Done, []))
      && (env.namingValid && env.fetch.NotFound? && cfg.enableGarbageCollection ==>
            c == Cycle(AfterSend(env.mutation),
                       [HttpRequest(DELETE, "https://" + cfg.argoEndpoint + "/api/v1/clusters/" + req.namespace + "?id.type=name",
                                    cfg.authToken, NoBody)]))
      && (env.namingValid && env.fetch.Found? && env.fetch.typeCheck.Some? ==> c == Cycle(Failed(env.fetch.typeCheck.value), []))
      && (env.namingValid && env.fetch.Found? && env.fetch.typeCheck.None? && env.fetch.kubeConfig.Failure? ==>
            c == Cycle(Failed(env.fetch.kubeConfig.error), []))
  {
    UrlShapes(cfg.argoEndpoint, req.namespace, "");
  }

  /** The endpoints the cycle talks to, written out as literals for the lemmas below. */
  lemma UrlShapes(endpoint: string, namespace: string, escapedServer: string)
    ensures ClustersUrl(endpoint) == "https://" + endpoint + "/api/v1/clusters"
    ensures DeleteUrl(endpoint, namespace) == "https://" + endpoint + "/api/v1/clusters/" + namespace + "?id.type=name"
    ensures UpdateUrl(endpoint, escapedServer) == "https://" + endpoint + "/api/v1/clusters/" + escapedServer
  {
  }

  /** The garbage-collection request depends on the secret's namespace only, never on its name. */
  lemma GcDeleteIgnoresSecretName(cfg: Config, r1: Request, r2: Request, env: Environment, escape: string -> string)
    requires env.fetch == NotFound && r1.namespace == r2.namespace
    ensures Decide(cfg, r1, env, escape) == Decide(cfg, r2, env, escape)
  {
  }

  /**
   * Every cycle issues at most two requests, all with the configured bearer
   * token: at most one mutation, which is the last request, preceded only by
   * the listing. When there is a mutation its send outcome is the cycle's
   * outcome; when there is none, that outcome plays no part.
   */
  lemma CycleShape(cfg: Config, req: Request, env: Environment, escape: string -> string, other: SendOutcome)
    ensures var c := Decide(cfg, req, env, escape);
      && |c.requests| <= 2
      && MutationCount(c.requests) <= 1
      && (forall i | 0 <= i < |c.requests| :: c.requests[i].bearer == cfg.authToken)
      && (forall i | 0 <= i < |c.requests| - 1 :: c.requests[i] == ListRequest(cfg))
      && (MutationCount(c.requests) == 1 ==>
            IsMutating(c.requests[|c.requests| - 1]) && c.outcome == AfterSend(env.mutation))
      && (MutationCount(c.requests) == 0 ==> Decide(cfg, req, env.(mutation := other), escape) == c)
  {
    var c := Decide(cfg, req, env, escape);
    MutationCountSmall(c.requests);
  }

  /** The number of mutations in a log of at most two requests. */
  lemma MutationCountSmall(requests: seq<HttpRequest>)
    requires |requests| <= 2
    ensures |requests| == 1 ==> MutationCount(requests) == (if IsMutating(requests[0]) then 1 else 0)
    ensures |requests| == 2 ==>
      MutationCount(requests) == (if IsMutating(requests[0]) then 1 else 0) + (if IsMutating(requests[1]) then 1 else 0)
  {
    if |requests| == 2 {
      assert requests[..1] == [requests[0]];
      assert requests[..1][..0] == [];
    } else if |requests| == 1 {
      assert requests[..0] == [];
    }
  }

  /** The built registration is marked as owned and of secret type cluster, and keeps both provenance labels. */
  lemma MergedLabels(cfg: Config, req: Request, k: KubeConfig)
    requires HasPrimaryEntries(k)
    ensures var labels := BuildTarget(cfg, req, k).clusterLabels;
      && labels.Keys == {OwnedLabel, SecretTypeLabel, SecretNameLabel, ClusterNamespaceLabel}
      && labels[OwnedLabel] == "true"
      && labels[SecretTypeLabel] == "cluster"
      && labels[SecretNameLabel] == TrimSuffix(req.name, KubeconfigSuffix) + KubeconfigSuffix
      && labels[ClusterNamespaceLabel] == req.namespace
      && IsMatch(BuildTarget(cfg, req, k), k.clusters[0].server)
  {
  }

  /** For a secret named `<x>-kubeconfig` the provenance label is the secret's own name. */
  lemma SecretNameLabelIsSecretName(cfg: Config, req: Request, k: KubeConfig)
    requires HasPrimaryEntries(k)
    ensures BuildTarget(cfg, req, k).clusterLabels[SecretNameLabel] == req.name <==> HasSuffix(req.name, KubeconfigSuffix)
  {
  }

  /** With no owned entry for the built server in the listing, the cycle lists and then creates the built registration. */
  lemma {:induction false} NoMatchCreates(cfg: Config, req: Request, env: Environment, escape: string -> string, k: KubeConfig, list: ClusterList)
    requires Parsed(env, k) && env.list == ListDelivered(Success(list))
    requires forall i | 0 <= i < |list.clusters| :: !IsMatch(list.clusters[i], k.clusters[0].server)
    ensures Decide(cfg, req, env, escape)
      == Cycle(AfterSend(env.mutation),
               [HttpRequest(GET, "https://" + cfg.argoEndpoint + "/api/v1/clusters", cfg.authToken, NoBody),
                HttpRequest(POST, "https://" + cfg.argoEndpoint + "/api/v1/clusters", cfg.authToken, Json(BuildTarget(cfg, req, k)))])
  {
    LastMatchIsLast(list.clusters, k.clusters[0].server);
  }

  /** Removing an entry that does not match leaves the scan's result unchanged. */
  lemma {:induction false} LastMatchSkip(a: seq<ArgoCluster>, c: ArgoCluster, b: seq<ArgoCluster>, server: string)
    requires !IsMatch(c, server)
    ensures LastMatch(a + [c] + b, server) == LastMatch(a + b, server)
    decreases |b|
  {
    if b == [] {
      assert a + [c] + b == a + [c];
      assert (a + [c])[..|a|] == a;
      assert a + b == a;
    } else {
      var n := |b| - 1;
      var s, t := a + [c] + b, a + b;
      assert s[|s| - 1] == b[n] && t[|t| - 1] == b[n];
      assert s[..|s| - 1] == a + [c] + b[..n];
      assert t[..|t| - 1] == a + b[..n];
      LastMatchSkip(a, c, b[..n], server);
    }
  }

  /**
   * An entry that is not labelled as owned by the controller, wherever it
   * stands in the listing, is never updated: the cycle is the same as if the
   * entry were absent, so with no other match it creates.
   */
  lemma {:induction false} UnownedEntryIgnored(cfg: Config, req: Request, env: Environment, escape: string -> string, k: KubeConfig,
                                               a: seq<ArgoCluster>, c: ArgoCluster, b: seq<ArgoCluster>)
    requires Parsed(env, k)
    requires LabelValue(c.clusterLabels, OwnedLabel) != "true"
    requires env.list == ListDelivered(Success(ClusterList(a + [c] + b)))
    ensures Decide(cfg, req, env, escape) == Decide(cfg, req, env.(list := ListDelivered(Success(ClusterList(a + b)))), escape)
    ensures (forall i | 0 <= i < |a + b| :: !IsMatch((a + b)[i], k.clusters[0].server)) ==>
      |Decide(cfg, req, env, escape).requests| == 2 && Decide(cfg, req, env, escape).requests[1].verb == POST
  {
    var without := env.(list := ListDelivered(Success(ClusterList(a + b))));
    LastMatchSkip(a, c, b, k.clusters[0].server);
    if forall i | 0 <= i < |a + b| :: !IsMatch((a + b)[i], k.clusters[0].server) {
      NoMatchCreates(cfg, req, without, escape, k, ClusterList(a + b));
    }
  }

  /**
   * The update copies name, CA and certificate from the built registration
   * and keeps everything else of the existing one; it leaves the entry as
   * it was exactly when none of the three differed, and never needs a second update.
   */
  lemma SyncedFields(existing: ArgoCluster, built: ArgoCluster)
    ensures var u := Synced(existing, built);
      && u.clusterName == built.clusterName
      && u.clusterConfig.tlsClientConfig.caData == built.clusterConfig.tlsClientConfig.caData
      && u.clusterConfig.tlsClientConfig.certData == built.clusterConfig.tlsClientConfig.certData
      && u.clusterConfig.tlsClientConfig.keyData == existing.clusterConfig.tlsClientConfig.keyData
      && u.clusterServer == existing.clusterServer
      && u.clusterLabels == existing.clusterLabels
      && u.namespacedName == existing.namespacedName
      && (u == existing <==> !NeedsUpdate(existing, built))
      && !NeedsUpdate(u, built)
  {
  }

  /**
   * With `existing` the last owned entry for the built server, the cycle
   * lists and then sends the updated entry to the escaped server's URL if
   * one of the three fields differs, and sends nothing more otherwise.
   */
  lemma {:induction false} MatchUpdatesOrNothing(cfg: Config, req: Request, env: Environment, escape: string -> string, k: KubeConfig, list: ClusterList, i: nat)
    requires Parsed(env, k) && env.list == ListDelivered(Success(list))
    requires i < |list.clusters| && IsMatch(list.clusters[i], k.clusters[0].server)
    requires forall j | i < j < |list.clusters| :: !IsMatch(list.clusters[j], k.clusters[0].server)
    ensures var existing, built := list.clusters[i], BuildTarget(cfg, req, k);
      Decide(cfg, req, env, escape)
        == if NeedsUpdate(existing, built) then
             Cycle(AfterSend(env.mutation),
                   [HttpRequest(GET, "https://" + cfg.argoEndpoint + "/api/v1/clusters", cfg.authToken, NoBody),
                    HttpRequest(PUT, UpdateUrl(cfg.argoEndpoint, escape(existing.clusterServer)),
                                cfg.authToken, Json(Synced(existing, built)))])
           else
             Cycle(Done, [HttpRequest(GET, "https://" + cfg.argoEndpoint + "/api/v1/clusters", cfg.authToken, NoBody)])
  {
    LastMatchAt(list.clusters, k.clusters[0].server, i);
  }

  /** Once the registry lists the registration that was created, the next cycle for the same secret sends nothing after the listing. */
  lemma IdempotentAfterCreate(cfg: Config, req: Request, env: Environment, escape: string -> string, k: KubeConfig, earlier: seq<ArgoCluster>)
    requires Parsed(env, k)
    requires env.list == ListDelivered(Success(ClusterList(earlier + [BuildTarget(cfg, req, k)])))
    ensures Decide(cfg, req, env, escape) == Cycle(Done, [ListRequest(cfg)])
  {
  }

  /** Once the registry stores the updated entry in place of the old one, the next cycle for the same secret sends nothing after the listing. */
  lemma {:induction false} IdempotentAfterUpdate(cfg: Config, req: Request, env: Environment, escape: string -> string, k: KubeConfig, list: ClusterList, i: nat)
    requires Parsed(env, k) && env.list == ListDelivered(Success(list))
    requires i < |list.clusters| && IsMatch(list.clusters[i], k.clusters[0].server)
    requires forall j | i < j < |list.clusters| :: !IsMatch(list.clusters[j], k.clusters[0].server)
    ensures var updated := list.clusters[i := Synced(list.clusters[i], BuildTarget(cfg, req, k))];
      Decide(cfg, req, env.(list := ListDelivered(Success(ClusterList(updated)))), escape) == Cycle(Done, [ListRequest(cfg)])
  {
    var updated := list.clusters[i := Synced(list.clusters[i], BuildTarget(cfg, req, k))];
    assert forall j | i < j < |updated| :: updated[j] == list.clusters[j];
    LastMatchAt(updated, k.clusters[0].server, i);
  }

  /** A failed listing request is reported as the decode error of an empty body, after the one listing request. */
  lemma ListSendFailureIsDecodeError(cfg: Config, req: Request, env: Environment, escape: string -> string, k: KubeConfig)
    requires Parsed(env, k) && env.list.ListSendFailed?
    ensures Decide(cfg, req, env, escape) == Cycle(Failed(Error("unexpected end of JSON input")), [ListRequest(cfg)])
  {
  }

  /** The cycle never validates TLS material: a registration with no CA is still created. */
  lemma CreatesWithoutTlsValidation(cfg: Config, req: Request, env: Environment, escape: string -> string, k: KubeConfig)
    requires Parsed(env, k) && env.list == ListDelivered(Success(ClusterList([])))
    requires k.clusters[0].caData == ""
    ensures var c := Decide(cfg, req, env, escape);
      && |c.requests| == 2 && c.requests[1].verb == POST
      && ValidateClusterTLSConfig(c.requests[1].body.cluster.clusterConfig.tlsClientConfig) == Fail(MissingKey)
  {
  }
}
