# capi2argo-cluster-operator: a Dafny model of the sync engine

The operator watches Cluster API (CAPI) kubeconfig secrets. For each one it
keeps a cluster registration in Argo CD's REST registry. This project models
two things and proves properties of both:

- the mapping from a parsed CAPI cluster to an Argo CD cluster record. This
  covers naming, the ownership and provenance labels, and the TLS check
  (`controllers/argo_cluster.go`);
- one reconciliation cycle of `Capi2Argo.Reconcile`
  (`controllers/capi2argo_reconciler.go`). It covers the naming gate, the
  not-found and garbage-collection branch, the label merge, the scan of the
  registry listing, and the create, update or no-op decision.

Files:

- `wrappers.dfy` (module `Wrappers`): `Option` and `Result`.
- `base64.dfy` (module `Base64`): `encoding/base64.StdEncoding` as Go's
  non-strict decoder behaves. It skips CR and LF, decodes in quanta of four
  characters with a padded final quantum, and accepts non-zero unused bits.
  It also has an encoder, so the round trip `Decode(Encode(b)) == Some(b)`
  can be proved.
- `argo_cluster.dfy` (module `Argo`): the records and the pure helpers of
  `argo_cluster.go`. The process-wide settings `EnableNamespacedNames`,
  `EnableGarbageCollection`, `ArgoNamespace`, `ArgoEndpoint` and `authToken`
  are fields of a `Config` value passed explicitly.
- `reconciler.dfy` (module `Reconciler`): the cycle. There are two
  versions of it:
  - `Decide` is a function of the cycle's inputs;
  - `Reconcile` is a method written step by step like the Go code, with
    loops for the label merge and the listing scan and a `changed` flag for
    the diff. It is proved to compute exactly what `Decide` computes.

  The lemmas about `Decide` then state what a cycle does. The HTTP layer is
  reduced to the ordered log of requests the cycle hands to `sendRequest`,
  and each request has one of two outcomes: delivered, or failed with an
  error building, sending or reading the request.

Behaviour of the code that the model keeps, although one might expect the
first match to win, the TLS material to be checked before it is sent, or
error statuses to fail a request:

- The listing scan never stops early, so when several entries match, the
  last one is updated (`controllers/capi2argo_reconciler.go:135-142`).
- `Reconcile` never calls `ValidateClusterTLSConfig`. A registration with
  empty or invalid TLS material is still posted
  (`Reconciler.CreatesWithoutTlsValidation`).
- `sendRequest` never looks at the HTTP status. Any response that arrives
  counts as success, on DELETE, POST and PUT alike. Only an error building,
  sending or reading the request fails it, and that error is returned to
  the caller; it is not just logged. Building fails when the URL does not
  parse, for example an endpoint with an invalid port or a space
  (controllers/capi2argo_reconciler.go:222, 225-229).
- With a body (POST or PUT), `sendRequest` sets a header on the new
  request before it checks the build error
  (controllers/capi2argo_reconciler.go:222-223), so a failed build there
  would be a nil dereference. Inside `Reconcile` this cannot happen: the
  POST reuses the URL the GET already used, and the PUT URL only appends
  `url.QueryEscape` output, which introduces no character that makes the
  URL unparseable. The model therefore gives POST and PUT the same two
  outcomes as every other request.
- The GET's error is overwritten before it is checked. A failed listing
  therefore ends the cycle with the JSON error for an empty body,
  "unexpected end of JSON input". The send error is lost.
- The garbage-collection DELETE goes to
  `https://<endpoint>/api/v1/clusters/<secret namespace>?id.type=name`.
  It names the namespace, not the cluster, so every secret of a namespace
  triggers the same DELETE (`Reconciler.GcDeleteIgnoresSecretName`).
- A kubeconfig with no cluster or no user makes `NewArgoCluster` index out
  of range. The model ends such a cycle with the outcome `Panicked` and no
  request, instead of forbidding the input.

## Model

| member | source | states |
|---|---|---|
| `Argo.LabelValue` | controllers/capi2argo_reconciler.go:137 | A Go map read gives the stored value for a present key and "" for a missing one |
| `Argo.ArgoCommonLabels` | controllers/argo_cluster.go:23-28 | The common labels have exactly the keys owned and secret-type, mapped to "true" and "cluster" |
| `Argo.TrimSuffix` | controllers/argo_cluster.go:80 | With the suffix present, the result followed by the suffix is the input; otherwise the input is unchanged |
| `Argo.TrimSuffixStripsOnce` | controllers/argo_cluster.go:80 | Exactly one trailing `-kubeconfig` is removed from `x-kubeconfig`, whatever `x` contains |
| `Argo.TrimSuffixExamples` | controllers/argo_cluster_test.go:52-69 | The test names `test-XXX-kubeconfig` and `capi-XXX` trim to `test-XXX` and `capi-XXX`; the further name `prod-kubeconfig` trims to `prod` |
| `Argo.BuildClusterName` | controllers/argo_cluster.go:86-92 | With namespaced names off the name is returned unchanged; with them on it is `namespace + "-" + name` |
| `Argo.BuildClusterNameInjective` | controllers/argo_cluster.go:86-92 | Within one namespace, equal built names come from equal source names, in both modes |
| `Argo.NamespacedNamesSeparateNamespaces` | controllers/argo_cluster.go:86-92 | With namespaced names on and hyphen-free namespaces, equal built names imply equal namespaces and names |
| `Argo.NamespacedNamesCanCollide` | controllers/argo_cluster.go:78-92 | With hyphenated namespaces, `b-c-kubeconfig` in `a` and `c-kubeconfig` in `a-b` get the same identifier |
| `Argo.BuildNamespacedName` | controllers/argo_cluster.go:78-83 | The namespace is always the Argo CD namespace, and the name is `cluster-` + the built name of the trimmed secret name |
| `Argo.NamespacedNameOfKubeconfigSecret` | controllers/argo_cluster.go:78-83 | The secret `x-kubeconfig` gets the name `cluster-` + the built name of `x` |
| `Argo.BuildNamespacedNameExamplesPlain` | controllers/argo_cluster_test.go:52-69 | With namespaced names off, the test rows give `cluster-test-XXX` and `cluster-capi-XXX`; as a further scenario, `prod-kubeconfig` in `team-a` gives `cluster-prod` with cluster name `prod` |
| `Argo.BuildNamespacedNameExamplesNamespaced` | controllers/argo_cluster_test.go:58-63 | With namespaced names on, the test row gives `cluster-test-ns-test-XXX`; as a further scenario, `prod-kubeconfig` in `team-a` gives `cluster-team-a-prod` with cluster name `team-a-prod` |
| `Argo.NewArgoCluster` | controllers/argo_cluster.go:58-75 | Identifier and name follow the naming policy. Server and CA come from the first cluster, cert and key from the first user. The labels are exactly the two provenance keys |
| `Argo.ProvenanceRecordsSecret` | controllers/argo_cluster.go:63-66 | For a secret named `x-kubeconfig`, the provenance labels map to the secret's own name and namespace |
| `Argo.CheckField` | controllers/argo_cluster.go:98-104 | A field passes iff it is non-empty standard base64; it fails with a missing key exactly when it is empty |
| `Argo.CheckFields` | controllers/argo_cluster.go:96-106 | The loop passes iff every field is usable; otherwise the error is the check of some unusable field |
| `Argo.ValidateClusterTLSConfig` | controllers/argo_cluster.go:95-107 | Passes iff CA, cert and key are all non-empty standard base64. Otherwise the first bad field in the order CA, cert, key decides between missing key and corrupt input |
| `Argo.ValidateClusterTLSConfigExamples` | controllers/argo_cluster_test.go:13-40 | Three encodings of "test" pass; `non-valid` as CA, a CA alone, and the empty struct fail |
| `Argo.NonValidRejected` | controllers/argo_cluster_test.go:24 | `non-valid` is not standard base64 |
| `Argo.EncodedTlsPasses` | controllers/argo_cluster.go:95-107 | Standard encodings of any non-empty octet strings pass the TLS check |
| `Base64.CharOf` | controllers/argo_cluster.go:102 | Every sextet has an alphabet character whose value is that sextet |
| `Base64.StripNewlines` | controllers/argo_cluster.go:102 | The decoder's input after CR and LF are skipped contains neither and is no longer |
| `Base64.StripNewlinesNoop` | controllers/argo_cluster.go:102 | Text without CR or LF is left unchanged |
| `Base64.StripConcat` | controllers/argo_cluster.go:102 | Skipping newlines distributes over concatenation |
| `Base64.NewlinesIgnored` | controllers/argo_cluster.go:102 | Inserting CR LF anywhere does not change what decodes |
| `Base64.DecodeQuantaSucceedsIff` | controllers/argo_cluster.go:102 | Decoding succeeds iff the text is whole quanta of alphabet characters, padded only by a final `=` or `==` |
| `Base64.IsStdBase64Iff` | controllers/argo_cluster.go:102 | A string is accepted iff, after skipping newlines, it is well-formed padded base64 |
| `Base64.Encode` | controllers/argo_cluster_test.go:15 | The encoding of `n` octets has `4 * ceil(n / 3)` characters, all alphabet or padding |
| `Base64.DecodeEncode` | controllers/argo_cluster.go:102 | Decoding the standard encoding of any octets gives them back |
| `Base64.EncodeIsStdBase64` | controllers/argo_cluster.go:102 | Every standard encoding is accepted by the decoder |
| `Base64.EncodeTest` | controllers/argo_cluster_test.go:15 | "test" encodes to `dGVzdA==` |
| `Base64.NonCanonicalPaddingAccepted` | controllers/argo_cluster.go:102 | `dGVzdB==`, with a non-zero unused bit, decodes like `dGVzdA==` to "test" |
| `Reconciler.Reconcile` | controllers/capi2argo_reconciler.go:60-209 | The step-by-step cycle ends with the same outcome and issues the same requests, in the same order, as `Decide` |
| `Reconciler.WriteLabels` | controllers/capi2argo_reconciler.go:118-120 | Writing the entries one key at a time, in any order, gives the labels overwritten by the entries |
| `Reconciler.ScanListing` | controllers/capi2argo_reconciler.go:126-142 | The scan reports a match iff `LastMatch` finds one, and then holds that entry |
| `Reconciler.SyncFields` | controllers/capi2argo_reconciler.go:172-184 | The flag is set iff name, CA or cert differ, and the entry becomes `Synced(existing, built)` |
| `Reconciler.LastMatchIsLast` | controllers/capi2argo_reconciler.go:135-142 | No match iff no entry has the server and the owned label. Otherwise the selected entry is such an entry, and there is no match after it |
| `Reconciler.LastMatchAt` | controllers/capi2argo_reconciler.go:135-142 | A matching entry with no later match is the one selected |
| `Reconciler.EarlyExits` | controllers/capi2argo_reconciler.go:66-114 | A failed naming gate, or a missing secret with GC off, ends with no error and no request. A fetch error, a type error or an unmarshal error is returned with no request. A missing secret with GC on sends one DELETE to `https://<endpoint>/api/v1/clusters/<namespace>?id.type=name` and returns its send outcome |
| `Reconciler.GcDeleteIgnoresSecretName` | controllers/capi2argo_reconciler.go:80-92 | For a missing secret the cycle depends only on its namespace, not its name |
| `Reconciler.CycleShape` | controllers/capi2argo_reconciler.go:60-209 | At most two requests, all with the configured bearer token, and at most one mutation, which comes last after the listing. A mutation's send outcome is the cycle's outcome; without a mutation, that outcome plays no part |
| `Reconciler.MergedLabels` | controllers/capi2argo_reconciler.go:118-120 | After the merge the labels are exactly owned→"true", secret-type→"cluster" and the two provenance keys with their built values, so the built record matches its own server |
| `Reconciler.SecretNameLabelIsSecretName` | controllers/capi2argo_reconciler.go:107-116 | The secret-name label equals the secret's name iff the name ends in `-kubeconfig` |
| `Reconciler.NoMatchCreates` | controllers/capi2argo_reconciler.go:150-169 | With no owned entry for the built server, the cycle sends the GET and then exactly one POST of the built record to the clusters URL |
| `Reconciler.LastMatchSkip` | controllers/capi2argo_reconciler.go:135-142 | Removing a non-matching entry from anywhere in the listing does not change which entry the scan selects |
| `Reconciler.UnownedEntryIgnored` | controllers/capi2argo_reconciler.go:136-137 | An entry without owned="true", at any position in any listing, is never updated: the cycle is the same as without it, and it creates when no other entry matches |
| `Reconciler.SyncedFields` | controllers/capi2argo_reconciler.go:172-184 | The update takes name, CA and cert from the built record and keeps key, server, labels and identifier. It equals the existing entry iff no field differed, and never needs a second update |
| `Reconciler.MatchUpdatesOrNothing` | controllers/capi2argo_reconciler.go:170-208 | With a last match, the cycle PUTs the synced entry to the escaped-server URL iff one of the three fields differs; otherwise nothing follows the GET |
| `Reconciler.IdempotentAfterCreate` | controllers/capi2argo_reconciler.go:135-208 | Once the listing ends with the created record, the next cycle sends nothing after the GET |
| `Reconciler.IdempotentAfterUpdate` | controllers/capi2argo_reconciler.go:135-208 | Once the listing holds the updated entry in place of the old one, the next cycle sends nothing after the GET |
| `Reconciler.ListSendFailureIsDecodeError` | controllers/capi2argo_reconciler.go:123-133 | A failed GET ends the cycle with "unexpected end of JSON input", after only the GET |
| `Reconciler.CreatesWithoutTlsValidation` | controllers/capi2argo_reconciler.go:116-169 | A kubeconfig with an empty CA is still posted, although its TLS material fails `ValidateClusterTLSConfig` |

## Left out

- `sendRequest` (controllers/capi2argo_reconciler.go:217-246): the HTTP
  plumbing over `net/http`. Each request is logged with its method, URL,
  bearer token and body, and its outcome (delivered, or an error building,
  sending or reading it) is an input. Headers and
  response bodies are not modelled; the only body the cycle reads is the
  listing's.
- `init` (controllers/capi2argo_reconciler.go:34-45) and `SetupWithManager`
  (212-214): reading environment variables and wiring the controller
  runtime. Their results are the `Config` parameter.
- `json.Marshal` and `json.Unmarshal`. The listing is an input: either a
  decoded `ClusterList` or a decode error. Request bodies are the records
  themselves. Marshalling these string-only records cannot fail, so the
  marshal error branches are left out.
- `url.QueryEscape` is the function parameter `escape`.
- `ValidateCapiNaming`, `r.Get`, `ValidateCapiSecret`, `NewCapiCluster` and
  `CapiCluster.Unmarshal` are not part of this model. Their results are
  inputs: the naming verdict, the fetch outcome (found, not found, or an
  error), the type-check error, and the parsed kubeconfig or its error.
- The fetched secret and the parsed cluster are not separate inputs. The
  model takes the secret's name and namespace to be the request's, since
  `r.Get` fetches the secret the request names. It takes the parsed
  cluster's name and namespace to be `TrimSuffix(req.name, "-kubeconfig")`
  and `req.namespace`: the values `NewCapiCluster(nn, ns)` receives
  (controllers/capi2argo_reconciler.go:106-109). `CapiCluster.Unmarshal`
  is assumed to keep them and to fill in only the kubeconfig. `BuildTarget`,
  `MergedLabels` and `SecretNameLabelIsSecretName` rest on these two
  assumptions.
- The kubeconfig keeps only the fields the core reads: each cluster's name,
  server and CA, and each user's certificate and key.
- Logging, the request context and the controller runtime's concurrent
  dispatch of events.
- `Argo.ValidateClusterTLSConfig`: the offset Go writes into a
  `CorruptInputError` is not modelled. The error is reduced to missing key
  versus corrupt input.
