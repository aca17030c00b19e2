# Canary aggregation and CRD availability cache, in Dafny

This project models the read-side core of the progressive-delivery service:

- **the canary fetcher** (`pkg/services/flagger/fetcher.go`). `ListCanaryDeployments` turns the page options into list options. It issues one clustered list of Flagger `CanaryList`s over every cluster of a pool. It then splits the outcome:
  - a fatal error: any error that is not a `ClusteredListError`;
  - per-cluster errors: one per sub-error of a `ClusteredListError`, plus one `FlaggerIsNotAvailableError` per cluster of the pages map whose Flagger CRD the CRD service does not report (a cluster that appears only among the sub-errors is never checked);
  - a result map: cluster → canaries, the concatenation of the cluster's `CanaryList` pages;
  - the pool's continue token, passed through.
  
  `FetchTargetRef` builds the key of a canary's target deployment and asks one cluster for it.
- **the CRD availability cache** (`pkg/services/crd/nocachefetcher.go`). `noCacheFetcher` keeps, per cluster, the CustomResourceDefinitions last listed there. `UpdateCRDList` refreshes every cluster of the pool. A successful List replaces that cluster's entry wholesale. A failure is swallowed and leaves the entry as it was. `IsAvailable` refreshes and then searches the cluster's list by name.

Layout:
- `wrappers.dfy`: `Option`, for Go's nil.
- `crd.dfy` (module `Crd`): `NoCacheFetcher`, a class with one mutable field `crds`. Its methods are proved against the specification function `Refreshed`. The facts about refreshing are lemmas about that function.
- `flagger.dfy` (module `Flagger`): the fetcher.
  - `ListCanaryDeployments` is a method built from the source's two loops: `CollectClusterErrors` over the sub-errors, and `GateAndMerge` over the pages map. `GateAndMerge` uses `MergeCanaryPages` for the inner loop over one cluster's pages.
  - `GateAndMerge` is proved against the specification function `ExpectedResults` and the merge function `CanaryItems`.
- `scenario.dfy` (module `FlaggerScenario`): two client methods that derive, from `ListCanaryDeployments`' contract alone, the outcome of a three-cluster scenario: A holds two canaries, B is unreachable, C lacks the CRD. The results are `{A: [two canaries], C: []}` and the errors `[B's transport error, C's FlaggerIsNotAvailableError]`.

How the collaborators are modelled:
- **Cluster client pool.** It is not an object.
  - The clustered list call is the parameter `clusteredList`. It is a function from the list options and the boolean argument (which the code passes as `true`) to the call's outcome: the pages per cluster, the continue token, and an optional error.
  - `errors.As` on that error becomes the discriminant `PlainError` / `ClusteredListError`.
  - The single-object `Get` is the parameter `get`.
  - For the CRD cache, the pool's `Clients()` together with the outcome of each client's `List` call is the per-call input `pool: map<Cluster, CrdListResult>`.
- **The CRD service seen by the fetcher.** It is the parameter `isAvailable`. `Crd.RepeatedRefreshIsOneRefresh` justifies treating it as a fixed predicate: while no List call changes its outcome, every lookup made during one `ListCanaryDeployments` sees the cache exactly as the first refresh left it.
- **Map iteration order.** Go iterates maps in unspecified order. Both loops pick the next cluster with `:|`, so the proofs hold for every order. For the same reason, facts about the capability errors are stated as multiset counts. `ListCanaryDeployments` also has a ghost out-parameter `checked`, which records the clusters whose capability was checked.

Behaviour of the code worth noting:
- `ListCanaryDeploymentsOptions.Namespace` is never used. No namespace option is sent, so canaries of every namespace are listed (`Flagger.NamespaceIsNotSent`).
- A cluster that is available but returned no `CanaryList` page gets **no** result entry, because the `append` never runs. An unavailable cluster always gets an empty entry.
- Result keys come from the pages map only. A cluster that appears in a `ClusteredListError` but also returned pages still gets an entry. A cluster that appears only in the errors gets none.

## Model

| member | source | states |
|---|---|---|
| `Crd.NoCacheFetcher.constructor` | pkg/services/crd/nocachefetcher.go:11-17 | a new fetcher has an empty CRD map |
| `Crd.Refreshed` | pkg/services/crd/nocachefetcher.go:26-43 | after a refresh, a cluster whose List succeeded holds exactly the returned items; a cluster whose List failed, and any cluster outside the pool, keeps its entry (or keeps having none); the keys are the old keys plus the successful clusters |
| `Crd.NoCacheFetcher.UpdateCRDList` | pkg/services/crd/nocachefetcher.go:26-43 | walking the pool in any order leaves `crds` equal to the refresh of the old map (`Refreshed`) |
| `Crd.RefreshIdempotent` | pkg/services/crd/nocachefetcher.go:26-43 | refreshing twice with the same outcomes gives the same map as refreshing once |
| `Crd.LastSuccessfulRefreshWins` | pkg/services/crd/nocachefetcher.go:32-42 | over two refreshes, each cluster holds the items of its last successful List, or its original entry if neither succeeded |
| `Crd.RepeatedRefreshIsOneRefresh` | pkg/services/crd/nocachefetcher.go:45-46 | any number (at least one) of refreshes with unchanged outcomes equals one refresh; hence every lookup in such a run sees the same cache and gives the same availability answer |
| `Crd.NoCacheFetcher.IsAvailable` | pkg/services/crd/nocachefetcher.go:45-57 | refreshes as UpdateCRDList does, then returns true iff the refreshed list of the cluster holds a CRD with that name; false when the cluster has no entry |
| `Crd.AvailabilityAfterRefresh` | pkg/services/crd/nocachefetcher.go:32-57 | after a refresh the answer for a successfully listed cluster is whether its listed items hold the name, for any other cluster the answer it had before, and false for a cluster without an entry |
| `Flagger.ListOptionsFor` | pkg/services/flagger/fetcher.go:50-57 | a Limit of the page size is sent iff the page size is non-zero, a Continue with the token iff the token is non-empty, Limit first, and no other option |
| `Flagger.NamespaceIsNotSent` | pkg/services/flagger/fetcher.go:33-57 | options that differ only in Namespace produce the same list options |
| `Flagger.CanaryItemsConcat` | pkg/services/flagger/fetcher.go:88-95 | merging pages `p + q` gives the items of `p` followed by the items of `q`: page order is kept |
| `Flagger.OtherListIsSkipped` | pkg/services/flagger/fetcher.go:89-92 | a page that is not a CanaryList contributes nothing wherever it stands |
| `Flagger.CanaryItemsMembership` | pkg/services/flagger/fetcher.go:88-95 | a canary is in the merge iff some CanaryList page holds it |
| `Flagger.CanaryItemsLength` | pkg/services/flagger/fetcher.go:88-95 | the merge has as many canaries as the CanaryList pages hold together |
| `Flagger.NoCanaryListNoItems` | pkg/services/flagger/fetcher.go:88-95 | without a CanaryList page the merge is empty |
| `Flagger.MergeCanaryPages` | pkg/services/flagger/fetcher.go:88-95 | the inner loop appends the merged items to the cluster's entry (missing reads as empty), creates the entry only if a CanaryList page is seen, and leaves every other entry alone |
| `Flagger.CollectClusterErrors` | pkg/services/flagger/fetcher.go:65-67 | one CanaryListError per sub-error, same cluster and cause, same order |
| `Flagger.NotAvailableErrorsCount` | pkg/services/flagger/fetcher.go:75-86 | the capability errors for a sequence of checked clusters name only unavailable clusters of it, each as often as it was checked |
| `Flagger.ExpectedEntry` | pkg/services/flagger/fetcher.go:70-96 | the per-cluster rule of the result map: no entry outside the pages map; an empty entry for an unavailable cluster whatever its pages; the merged CanaryList items for an available one, whose entry exists iff it returned a CanaryList page |
| `Flagger.GateAndMerge` | pkg/services/flagger/fetcher.go:70-96 | in any iteration order, builds exactly that result map, checks every cluster of the pages map once, and emits exactly one FlaggerIsNotAvailableError per unavailable cluster and no other error, in checking order (`NotAvailableErrors` of the clusters checked) |
| `Flagger.ListCanaryDeployments` | pkg/services/flagger/fetcher.go:39-99 | the clustered list is called with `ListOptionsFor(options)` and the boolean argument `true`; a plain error gives a nil map, an empty token, no per-cluster errors, that error as the fatal error and no capability check; otherwise no fatal error, the pool's token unchanged, the sub-errors converted in order first, then one capability error per unavailable cluster, and result entries only for clusters of the pages map following the per-cluster rule |
| `Flagger.TargetRefKeyInjective` | pkg/services/flagger/fetcher.go:109-112 | two canaries give the same object key iff they have the same target name and namespace |
| `Flagger.FetchTargetRefLooksUpTarget` | pkg/services/flagger/fetcher.go:101-117 | the outcome is the Get of the key named by Spec.TargetRef.Name in the canary's own namespace, returned unchanged, and depends on the canary through nothing else |
| `Flagger.FetchTargetRefAsksOnlyItsCluster` | pkg/services/flagger/fetcher.go:114 | only the given cluster is asked: clients that answer alike on it give the same outcome |

Definitions without a row of their own. These functions define behaviour of the source, but they carry no contract of their own. The lemmas and methods named beside each one state their properties:
- `Flagger.TargetRefKey` (pkg/services/flagger/fetcher.go:109-112), the key of a canary's target: `Flagger.TargetRefKeyInjective`, `Flagger.FetchTargetRefLooksUpTarget`.
- `Flagger.FetchTargetRef` (pkg/services/flagger/fetcher.go:101-117), one Get of that key on the given cluster: `Flagger.FetchTargetRefLooksUpTarget`, `Flagger.FetchTargetRefAsksOnlyItsCluster`.
- `Flagger.PageItems` (pkg/services/flagger/fetcher.go:89-92) and `Flagger.CanaryItems` (pkg/services/flagger/fetcher.go:88-95), the items of one page and of a cluster's pages: `Flagger.OtherListIsSkipped`, `Flagger.CanaryItemsConcat`, `Flagger.CanaryItemsMembership`, `Flagger.CanaryItemsLength`, `Flagger.NoCanaryListNoItems`, `Flagger.MergeCanaryPages`.
- `Flagger.ExpectedResults` (pkg/services/flagger/fetcher.go:70-96), the result map of a non-fatal call: `Flagger.ExpectedEntry`, `Flagger.GateAndMerge`, `Flagger.ListCanaryDeployments`.
- `Flagger.IsFatal` (pkg/services/flagger/fetcher.go:59-62), an error that is not a `ClusteredListError`: `Flagger.ListCanaryDeployments`.
- `Crd.HasCrd` (pkg/services/crd/nocachefetcher.go:51-57), the search of a cluster's cached list by name: `Crd.NoCacheFetcher.IsAvailable`, `Crd.AvailabilityAfterRefresh`, `Crd.RepeatedRefreshIsOneRefresh`.

## Left out

- The `sync.RWMutex` of `noCacheFetcher`: calls are modelled as sequential and atomic. Concurrent refreshes are not modelled.
- `clustersmngr.Client`, `ClusteredList`, `ClientsPool().Clients()`, `client.List`, `client.Get` and `context`. These are external calls. They appear as parameters that give their outcome. Pagination across pages, per-cluster timeouts and which clusters the pool knows are the pool's behaviour and are not modelled. So a round trip over continue tokens, and the guarantee that clusters outside the pool never appear, are the pool's behaviour and are not proved here.
- `NewNoCacheFetcher`'s `clientPool` argument: the pool is passed to each call instead of being stored, because its clients and their outcomes change between calls.
- `NewFetcher` and the `Fetcher` interface: they only wire the CRD service in, which here is the `isAvailable` parameter.
- The contents of Canary, Deployment and CustomResourceDefinition objects beyond the names, namespaces, target name and items used by the code. Error messages are opaque strings.
- Go's nil-versus-empty distinction for slices. A result entry holding a nil slice is modelled as an empty sequence. So is the nil `respErrors` that the code returns on the fatal path (fetcher.go:62) and on any call without errors.
- ListCanaryDeployments: states the capability errors by count, not their order among themselves. `GateAndMerge` proves they come in checking order (`NotAvailableErrors` of the ghost `checked`), but that order is the unspecified map iteration order. Carrying the recursive description into the caller's contract makes every proof that uses the contract too costly.
- The meaning of the boolean third argument of `ClusteredList`: it belongs to the pool. The model only records that the code passes `true`.
- `pkg/server/test_resources_test.go` (test fixtures that create objects through a live client) and `tools/tools.go` (a build-tool import pin) carry no logic to model.
