/**
 * The canary fetcher of the progressive-delivery service
 * (pkg/services/flagger/fetcher.go): one clustered list of Flagger canaries
 * across every cluster of a pool, split into per-cluster results, a
 * continue token, per-cluster errors and a fatal error.
 *
 * The cluster client and the CRD service are not objects here: the clustered
 * list call, the single-object Get and the capability check are parameters
 * (functions from the request to its outcome).
 */
module Flagger {
  import opened Wrappers

  type Cluster = string

  /** Name of the CRD that must be installed on a cluster for canaries to be listed there. */
  const FlaggerCrdName: string := "canaries.flagger.app"

  newtype int32 = x: int | -0x8000_0000 <= x < 0x8000_0000
  newtype int64 = x: int | -0x8000_0000_0000_0000 <= x < 0x8000_0000_0000_0000

  /** A Flagger canary, reduced to its name, namespace and Spec.TargetRef.Name. */
  datatype Canary = Canary(name: string, namespace: string, targetRefName: string)

  /** One page a cluster returned: a CanaryList, or an object list of another type. */
  datatype ObjectList = CanaryList(items: seq<Canary>) | OtherList

  /** An error value: an opaque cause, or the one this package raises itself. */
  datatype Error = Cause(message: string) | FlaggerIsNotAvailableError(clusterName: Cluster)

  /** One sub-error of a ClusteredListError. */
  datatype ClusterError = ClusterError(cluster: Cluster, err: Error)

  /**
   * How a clustered list call can fail; the discriminant plays the part of
   * Go's errors.As test for a ClusteredListError.
   */
  datatype ListFailure = PlainError(err: Error) | ClusteredListError(errors: seq<ClusterError>)

  /** What the clustered list call leaves behind: the pages per cluster, the token, and its error. */
  datatype ClusteredListResult = ClusteredListResult(
    lists: map<Cluster, seq<ObjectList>>,
    continueToken: string,
    err: Option<ListFailure>)

  /** A per-cluster error reported to the caller. */
  datatype CanaryListError = CanaryListError(clusterName: Cluster, err: Error)

  datatype ListCanaryDeploymentsOptions = ListCanaryDeploymentsOptions(
    namespace: string,
    pageSize: int32,
    pageToken: string)

  /** The list options a request can carry. */
  datatype ListOption = Limit(limit: int64) | Continue(token: string)

  // ---------------------------------------------------------------------------
  // Option translation

  /**
   * The list options sent with the clustered list: a limit iff a page size is
   * given, a continue token iff a page token is given, in that order, and
   * nothing else (the namespace is not sent).
   */
  function ListOptionsFor(options: ListCanaryDeploymentsOptions): (opts: seq<ListOption>)
    ensures Limit(options.pageSize as int64) in opts <==> options.pageSize != 0
    ensures Continue(options.pageToken) in opts <==> options.pageToken != ""
    ensures forall o :: o in opts ==> o == Limit(options.pageSize as int64) || o == Continue(options.pageToken)
    ensures |opts| == (if options.pageSize != 0 then 1 else 0) + (if options.pageToken != "" then 1 else 0)
    ensures |opts| == 2 ==> opts[0].Limit? && opts[1].Continue?
  {
    var withLimit := if options.pageSize != 0 then [Limit(options.pageSize as int64)] else [];
    withLimit + if options.pageToken != "" then [Continue(options.pageToken)] else []
  }

  /** Options that differ only in their namespace produce the same list options. */
  lemma NamespaceIsNotSent(a: ListCanaryDeploymentsOptions, b: ListCanaryDeploymentsOptions)
    requires a.pageSize == b.pageSize && a.pageToken == b.pageToken
    ensures ListOptionsFor(a) == ListOptionsFor(b)
  {
  }

  // ---------------------------------------------------------------------------
  // Merging one cluster's pages

  /** The items of one page: a CanaryList's items; nothing for any other list type. */
  function PageItems(page: ObjectList): seq<Canary>
  {
    match page
    case CanaryList(items) => items
    case OtherList => []
  }

  /** True iff some page is a CanaryList. */
  predicate HasCanaryList(pages: seq<ObjectList>)
  {
    exists i :: 0 <= i < |pages| && pages[i].CanaryList?
  }

  /** The items of the CanaryList pages, page after page. */
  function CanaryItems(pages: seq<ObjectList>): seq<Canary>
  {
    if pages == [] then [] else CanaryItems(pages[..|pages| - 1]) + PageItems(pages[|pages| - 1])
  }

  /** Concatenating pages concatenates their items: page order is kept. */
  lemma {:induction false} CanaryItemsConcat(p: seq<ObjectList>, q: seq<ObjectList>)
    ensures CanaryItems(p + q) == CanaryItems(p) + CanaryItems(q)
    decreases |q|
  {
    if q == [] {
      assert p + q == p;
    } else {
      var q' := q[..|q| - 1];
      var last := q[|q| - 1];
      assert (p + q)[..|p + q| - 1] == p + q';
      assert (p + q)[|p + q| - 1] == last;
      assert CanaryItems(p + q) == CanaryItems(p + q') + PageItems(last);
      assert CanaryItems(q) == CanaryItems(q') + PageItems(last);
      CanaryItemsConcat(p, q');
    }
  }

  /** A page that is not a CanaryList contributes nothing wherever it stands. */
  lemma OtherListIsSkipped(p: seq<ObjectList>, q: seq<ObjectList>)
    ensures CanaryItems(p + [OtherList] + q) == CanaryItems(p + q)
  {
    var withOther := p + [OtherList];
    assert withOther[..|withOther| - 1] == p;
    assert CanaryItems(withOther) == CanaryItems(p);
    CanaryItemsConcat(withOther, q);
    CanaryItemsConcat(p, q);
  }

  /** A canary is merged iff some CanaryList page holds it. */
  lemma {:induction false} CanaryItemsMembership(pages: seq<ObjectList>, x: Canary)
    ensures x in CanaryItems(pages) <==>
      exists i :: 0 <= i < |pages| && pages[i].CanaryList? && x in pages[i].items
  {
    if pages != [] {
      var init := pages[..|pages| - 1];
      CanaryItemsMembership(init, x);
      if x in CanaryItems(init) {
        var i :| 0 <= i < |init| && init[i].CanaryList? && x in init[i].items;
        assert pages[i] == init[i];
      }
      if exists i :: 0 <= i < |pages| && pages[i].CanaryList? && x in pages[i].items {
        var i :| 0 <= i < |pages| && pages[i].CanaryList? && x in pages[i].items;
        if i < |init| {
          assert init[i] == pages[i];
        }
      }
    }
  }

  /** The number of merged canaries is the sum of the CanaryList pages' sizes. */
  function ItemCount(pages: seq<ObjectList>): nat
  {
    if pages == [] then 0 else |PageItems(pages[0])| + ItemCount(pages[1..])
  }

  lemma {:induction false} CanaryItemsLength(pages: seq<ObjectList>)
    ensures |CanaryItems(pages)| == ItemCount(pages)
    decreases |pages|
  {
    if pages != [] {
      assert pages == [pages[0]] + pages[1..];
      CanaryItemsConcat([pages[0]], pages[1..]);
      assert [pages[0]][..0] == [];
      CanaryItemsLength(pages[1..]);
    }
  }

  /** Without a CanaryList page there is nothing to merge. */
  lemma {:induction false} NoCanaryListNoItems(pages: seq<ObjectList>)
    requires !HasCanaryList(pages)
    ensures CanaryItems(pages) == []
  {
    if pages != [] {
      var init := pages[..|pages| - 1];
      assert !HasCanaryList(init) by {
        forall i | 0 <= i < |init| ensures !init[i].CanaryList? {
          assert init[i] == pages[i];
        }
      }
      NoCanaryListNoItems(init);
    }
  }

  /** Appending one page: its items come last, and it is a CanaryList or it is not. */
  lemma AppendPage(pages: seq<ObjectList>, page: ObjectList)
    ensures CanaryItems(pages + [page]) == CanaryItems(pages) + PageItems(page)
    ensures HasCanaryList(pages + [page]) <==> HasCanaryList(pages) || page.CanaryList?
  {
    var p := pages + [page];
    assert p[..|p| - 1] == pages;
    if HasCanaryList(p) && !page.CanaryList? {
      var k :| 0 <= k < |p| && p[k].CanaryList?;
      assert k < |pages| && pages[k] == p[k];
    }
    if HasCanaryList(pages) {
      var k :| 0 <= k < |pages| && pages[k].CanaryList?;
      assert p[k] == pages[k];
    }
    assert page.CanaryList? ==> p[|pages|].CanaryList?;
  }

  /** One more page of a prefix: the step the merge loop takes. */
  lemma PrefixStep(pages: seq<ObjectList>, j: nat)
    requires j < |pages|
    ensures CanaryItems(pages[..j + 1]) == CanaryItems(pages[..j]) + PageItems(pages[j])
    ensures HasCanaryList(pages[..j + 1]) <==> HasCanaryList(pages[..j]) || pages[j].CanaryList?
  {
    assert pages[..j + 1] == pages[..j] + [pages[j]];
    AppendPage(pages[..j], pages[j]);
  }

  /**
   * Regrouping a concatenation. Kept as a lemma so the loop of
   * MergeCanaryPages does not have to find it among its own facts.
   */
  lemma SeqAssoc<T>(a: seq<T>, b: seq<T>, c: seq<T>)
    ensures (a + b) + c == a + (b + c)
  {
  }

  // ---------------------------------------------------------------------------
  // ListCanaryDeployments

  /** True iff the clustered list failed with an error that is not a ClusteredListError. */
  predicate IsFatal(call: ClusteredListResult)
  {
    call.err.Some? && call.err.value.PlainError?
  }

  /** The sub-errors of a ClusteredListError; none for a call that did not fail that way. */
  function StructuredErrors(call: ClusteredListResult): seq<ClusterError>
  {
    if call.err.Some? && call.err.value.ClusteredListError? then call.err.value.errors else []
  }

  /** The error recorded for a cluster whose Flagger CRD is not available. */
  function NotAvailable(c: Cluster): CanaryListError
  {
    CanaryListError(c, FlaggerIsNotAvailableError(c))
  }

  /** The result map a non-fatal call builds. */
  ghost function ExpectedResults(lists: map<Cluster, seq<ObjectList>>,
                                 isAvailable: (Cluster, string) -> bool): map<Cluster, seq<Canary>>
  {
    map c | c in lists && (!isAvailable(c, FlaggerCrdName) || HasCanaryList(lists[c])) ::
      if isAvailable(c, FlaggerCrdName) then CanaryItems(lists[c]) else []
  }

  /** A second update of the same key overrides the first (used by MergeCanaryPages). */
  lemma UpdateTwice<K, V>(m: map<K, V>, k: K, a: V, b: V)
    ensures m[k := a][k := b] == m[k := b]
  {
  }

  /**
   * The rule ExpectedResults applies to each cluster: an entry only for
   * clusters of the pages map; an unavailable cluster gets an empty entry
   * whatever its pages; an available one gets the items of its CanaryList
   * pages, and an entry at all only if it returned such a page.
   */
  lemma ExpectedEntry(lists: map<Cluster, seq<ObjectList>>, isAvailable: (Cluster, string) -> bool, c: Cluster)
    ensures c !in lists ==> c !in ExpectedResults(lists, isAvailable)
    ensures c in lists && !isAvailable(c, FlaggerCrdName) ==>
      c in ExpectedResults(lists, isAvailable) && ExpectedResults(lists, isAvailable)[c] == []
    ensures c in lists && isAvailable(c, FlaggerCrdName) ==>
      (c in ExpectedResults(lists, isAvailable) <==> HasCanaryList(lists[c])) &&
      (c in ExpectedResults(lists, isAvailable) ==> ExpectedResults(lists, isAvailable)[c] == CanaryItems(lists[c]))
  {
  }

  /** Taking one more key out of the set of keys still to be filled in. */
  lemma FillOneKey<K, V>(target: map<K, V>, remaining: set<K>, k: K)
    requires k in remaining
    ensures k in target ==> (target - remaining)[k := target[k]] == target - (remaining - {k})
    ensures k !in target ==> target - remaining == target - (remaining - {k})
  {
  }

  /**
   * The inner loop of ListCanaryDeployments: appends, page after page, the
   * items of every CanaryList page to the entry of `clusterName` (a missing
   * entry reading as empty) and skips pages of any other type. The entry
   * exists afterwards iff it existed before or a CanaryList page was seen;
   * no other entry changes.
   */
  method MergeCanaryPages(results: map<Cluster, seq<Canary>>, clusterName: Cluster, pages: seq<ObjectList>)
    returns (merged: map<Cluster, seq<Canary>>)
    ensures merged == if clusterName in results || HasCanaryList(pages)
      then results[clusterName := (if clusterName in results then results[clusterName] else []) + CanaryItems(pages)]
      else results
  {
    ghost var start := if clusterName in results then results[clusterName] else [];
    ghost var entry: Option<seq<Canary>> := if clusterName in results then Some(start) else None;
    merged := results;
    assert clusterName in results ==> results[clusterName := start] == results;
    var j := 0;
    while j < |pages|
      invariant 0 <= j <= |pages|
      invariant merged == if entry.Some? then results[clusterName := entry.value] else results
      invariant entry.Some? <==> clusterName in results || HasCanaryList(pages[..j])
      invariant entry.Some? ==> entry.value == start + CanaryItems(pages[..j])
    {
      PrefixStep(pages, j);
      if pages[j].CanaryList? {
        var current := if clusterName in merged then merged[clusterName] else [];
        ghost var done := CanaryItems(pages[..j]);
        assert current == start + done by {
          if clusterName !in merged {
            NoCanaryListNoItems(pages[..j]);
          }
        }
        var items := pages[j].items;
        assert PageItems(pages[j]) == items;
        SeqAssoc(start, done, items);
        if entry.Some? {
          UpdateTwice(results, clusterName, entry.value, current + items);
        }
        merged := merged[clusterName := current + items];
        entry := Some(current + items);
      }
      j := j + 1;
    }
    assert pages[..|pages|] == pages;
  }

  /**
   * The first loop of ListCanaryDeployments: one CanaryListError per
   * sub-error of a ClusteredListError, with the same cluster and cause, in
   * the same order.
   */
  method CollectClusterErrors(errs: seq<ClusterError>) returns (respErrors: seq<CanaryListError>)
    ensures |respErrors| == |errs|
    ensures forall i :: 0 <= i < |errs| ==>
      respErrors[i].clusterName == errs[i].cluster && respErrors[i].err == errs[i].err
  {
    respErrors := [];
    var i := 0;
    while i < |errs|
      invariant 0 <= i <= |errs|
      invariant |respErrors| == i
      invariant forall k :: 0 <= k < i ==>
        respErrors[k].clusterName == errs[k].cluster && respErrors[k].err == errs[k].err
    {
      respErrors := respErrors + [CanaryListError(errs[i].cluster, errs[i].err)];
      i := i + 1;
    }
  }

  /** Checking one more cluster keeps every checked cluster checked exactly once. */
  lemma CheckOneMore(lists: map<Cluster, seq<ObjectList>>, remaining: set<Cluster>,
                     checked: seq<Cluster>, c: Cluster)
    requires c in remaining && remaining <= lists.Keys
    requires forall d :: d in checked ==> d in lists && d !in remaining
    requires forall d :: d in lists && d !in remaining ==> multiset(checked)[d] == 1
    ensures forall d :: d in checked + [c] ==> d in lists && d !in remaining - {c}
    ensures forall d :: d in lists && d !in remaining - {c} ==> multiset(checked + [c])[d] == 1
  {
    assert multiset(checked + [c]) == multiset(checked) + multiset{c};
    assert c !in checked;
  }

  /** The errors for the unavailable clusters among `clusters`, in the same order. */
  function NotAvailableErrors(clusters: seq<Cluster>, isAvailable: (Cluster, string) -> bool): seq<CanaryListError>
  {
    if clusters == [] then []
    else
      var last := clusters[|clusters| - 1];
      NotAvailableErrors(clusters[..|clusters| - 1], isAvailable) +
      if isAvailable(last, FlaggerCrdName) then [] else [NotAvailable(last)]
  }

  /**
   * Each error names an unavailable cluster of `clusters`, and an unavailable
   * cluster is named as often as it occurs in `clusters`; an available one
   * never.
   */
  lemma {:induction false} NotAvailableErrorsCount(clusters: seq<Cluster>, isAvailable: (Cluster, string) -> bool)
    ensures forall e :: e in NotAvailableErrors(clusters, isAvailable) ==>
      e.clusterName in clusters && !isAvailable(e.clusterName, FlaggerCrdName) && e == NotAvailable(e.clusterName)
    ensures forall c :: isAvailable(c, FlaggerCrdName) ==>
      multiset(NotAvailableErrors(clusters, isAvailable))[NotAvailable(c)] == 0
    ensures forall c :: !isAvailable(c, FlaggerCrdName) ==>
      multiset(NotAvailableErrors(clusters, isAvailable))[NotAvailable(c)] == multiset(clusters)[c]
  {
    if clusters != [] {
      var init := clusters[..|clusters| - 1];
      var last := clusters[|clusters| - 1];
      NotAvailableErrorsCount(init, isAvailable);
      assert clusters == init + [last];
      assert multiset(clusters) == multiset(init) + multiset{last};
      forall e | e in NotAvailableErrors(init, isAvailable)
        ensures e.clusterName in clusters
      {
        assert e.clusterName in init;
      }
    }
  }

  /**
   * One step of the second loop: when the result map holds exactly the
   * expected entries of the clusters already visited, handling cluster `c`
   * (an empty entry if unavailable, the merge of its pages otherwise) adds
   * exactly the expected entry of `c`.
   */
  lemma GateStep(lists: map<Cluster, seq<ObjectList>>, isAvailable: (Cluster, string) -> bool,
                 remaining: set<Cluster>, results: map<Cluster, seq<Canary>>, c: Cluster)
    requires c in remaining && remaining <= lists.Keys
    requires results == ExpectedResults(lists, isAvailable) - remaining
    ensures c !in results
    ensures !isAvailable(c, FlaggerCrdName) ==>
      results[c := []] == ExpectedResults(lists, isAvailable) - (remaining - {c})
    ensures isAvailable(c, FlaggerCrdName) ==>
      (if c in results || HasCanaryList(lists[c])
       then results[c := [] + CanaryItems(lists[c])]
       else results) == ExpectedResults(lists, isAvailable) - (remaining - {c})
  {
    ghost var expected := ExpectedResults(lists, isAvailable);
    ExpectedEntry(lists, isAvailable, c);
    FillOneKey(expected, remaining, c);
    assert c !in results;
    assert [] + CanaryItems(lists[c]) == CanaryItems(lists[c]);
  }

  /**
   * The second loop of ListCanaryDeployments, over the pages map in
   * unspecified order: checks each cluster's capability once; an unavailable
   * cluster gets an empty entry and one FlaggerIsNotAvailableError (returned
   * in `capErrors`, in checking order), an available one the merge of its
   * pages. The ghost `checked` records the clusters checked, in order.
   */
  method GateAndMerge(lists: map<Cluster, seq<ObjectList>>, isAvailable: (Cluster, string) -> bool)
    returns (results: map<Cluster, seq<Canary>>, capErrors: seq<CanaryListError>, ghost checked: seq<Cluster>)
    ensures results == ExpectedResults(lists, isAvailable)
    ensures forall e :: e in capErrors ==>
      e.clusterName in lists && !isAvailable(e.clusterName, FlaggerCrdName) && e == NotAvailable(e.clusterName)
    ensures forall c :: c in lists && !isAvailable(c, FlaggerCrdName) ==> multiset(capErrors)[NotAvailable(c)] == 1
    ensures capErrors == NotAvailableErrors(checked, isAvailable)
    ensures forall c :: c in checked ==> c in lists
    ensures forall c :: c in lists ==> multiset(checked)[c] == 1
  {
    capErrors := [];
    checked := [];
    ghost var expected := ExpectedResults(lists, isAvailable);
    results := map[];
    var remaining := lists.Keys;
    while remaining != {}
      invariant remaining <= lists.Keys
      invariant results == expected - remaining
      invariant capErrors == NotAvailableErrors(checked, isAvailable)
      invariant forall c :: c in checked ==> c in lists && c !in remaining
      invariant forall c :: c in lists && c !in remaining ==> multiset(checked)[c] == 1
      decreases remaining
    {
      var clusterName :| clusterName in remaining;
      CheckOneMore(lists, remaining, checked, clusterName);
      assert (checked + [clusterName])[..|checked|] == checked;
      checked := checked + [clusterName];
      GateStep(lists, isAvailable, remaining, results, clusterName);
      if !isAvailable(clusterName, FlaggerCrdName) {
        capErrors := capErrors + [NotAvailable(clusterName)];
        results := results[clusterName := []];
      } else {
        results := MergeCanaryPages(results, clusterName, lists[clusterName]);
      }
      remaining := remaining - {clusterName};
    }
    NotAvailableErrorsCount(checked, isAvailable);
    assert expected - {} == expected;
  }

  /**
   * Lists canaries on every cluster. `clusteredList` is the clustered list
   * call, from its options and the boolean argument the code passes as
   * `true` to its outcome;
   * `isAvailable` is the CRD service's capability check. The ghost `checked`
   * records the clusters whose capability was checked, in order.
   *
   * A fatal failure returns no map, an empty token, no per-cluster errors and
   * the error itself, after no capability check. Otherwise the sub-errors of a
   * ClusteredListError come first, one per sub-error in order; then each
   * cluster of the pages map is checked once: an unavailable one gets an empty
   * entry and exactly one FlaggerIsNotAvailableError, an available one the
   * items of its CanaryList pages in page order (and no entry if it returned
   * no CanaryList page). The token is passed through.
   */
  method ListCanaryDeployments(
    clusteredList: (seq<ListOption>, bool) -> ClusteredListResult,
    isAvailable: (Cluster, string) -> bool,
    options: ListCanaryDeploymentsOptions)
    returns (results: Option<map<Cluster, seq<Canary>>>, continueToken: string,
             respErrors: seq<CanaryListError>, fatal: Option<Error>, ghost checked: seq<Cluster>)
    ensures var call := clusteredList(ListOptionsFor(options), true);
      IsFatal(call) ==>
        results == None && continueToken == "" && respErrors == [] &&
        fatal == Some(call.err.value.err) && checked == []
    ensures var call := clusteredList(ListOptionsFor(options), true);
      !IsFatal(call) ==>
        fatal == None && continueToken == call.continueToken && results.Some? &&
        results.value.Keys <= call.lists.Keys
    ensures var call := clusteredList(ListOptionsFor(options), true);
      !IsFatal(call) && results.Some? ==>
        (forall c :: c in call.lists && !isAvailable(c, FlaggerCrdName) ==>
          c in results.value && results.value[c] == []) &&
        (forall c :: c in call.lists && isAvailable(c, FlaggerCrdName) ==>
          (c in results.value <==> HasCanaryList(call.lists[c])) &&
          (c in results.value ==> results.value[c] == CanaryItems(call.lists[c])))
    ensures var call := clusteredList(ListOptionsFor(options), true);
      var sub := StructuredErrors(call);
      !IsFatal(call) ==>
        |sub| <= |respErrors| &&
        (forall i :: 0 <= i < |sub| ==> respErrors[i] == CanaryListError(sub[i].cluster, sub[i].err)) &&
        (forall e :: e in respErrors[|sub|..] ==>
          e.clusterName in call.lists && !isAvailable(e.clusterName, FlaggerCrdName) &&
          e == NotAvailable(e.clusterName)) &&
        (forall c :: c in call.lists && !isAvailable(c, FlaggerCrdName) ==>
          multiset(respErrors[|sub|..])[NotAvailable(c)] == 1)
    ensures var call := clusteredList(ListOptionsFor(options), true);
      !IsFatal(call) ==>
        (forall c :: c in checked ==> c in call.lists) &&
        (forall c :: c in call.lists ==> multiset(checked)[c] == 1)
  {
    respErrors := [];
    var opts := ListOptionsFor(options);
    var clist := clusteredList(opts, true);
    if clist.err.Some? {
      if clist.err.value.PlainError? {
        return None, "", respErrors, Some(clist.err.value.err), [];
      }
      respErrors := CollectClusterErrors(clist.err.value.errors);
    }
    var res, capErrors;
    res, capErrors, checked := GateAndMerge(clist.lists, isAvailable);
    assert (respErrors + capErrors)[|respErrors|..] == capErrors;
    respErrors := respErrors + capErrors;
    results := Some(res);
    continueToken := clist.continueToken;
    fatal := None;
  }

  // ---------------------------------------------------------------------------
  // FetchTargetRef

  /** The key of a Kubernetes object. */
  datatype ObjectKey = ObjectKey(name: string, namespace: string)

  /** A Deployment, reduced to its key. */
  datatype Deployment = Deployment(name: string, namespace: string)

  /** What the single-object Get leaves behind: the deployment it filled in and its error. */
  datatype GetResult = GetResult(deployment: Deployment, err: Option<Error>)

  /** The key of a canary's target: Spec.TargetRef.Name in the canary's own namespace. */
  function TargetRefKey(canary: Canary): ObjectKey
  {
    ObjectKey(canary.targetRefName, canary.namespace)
  }

  /** Two canaries have the same target key iff they name the same target in the same namespace. */
  lemma TargetRefKeyInjective(a: Canary, b: Canary)
    ensures TargetRefKey(a) == TargetRefKey(b) <==>
      a.targetRefName == b.targetRefName && a.namespace == b.namespace
  {
  }

  /**
   * Fetches the canary's target deployment with one Get on `clusterName`;
   * `get` is that call, from cluster and key to its outcome, which is
   * returned as it is.
   */
  function FetchTargetRef(get: (Cluster, ObjectKey) -> GetResult, clusterName: Cluster, canary: Canary): (r: GetResult)
  {
    get(clusterName, TargetRefKey(canary))
  }

  /**
   * Only the given cluster is asked: two clients that answer alike on it
   * give the same outcome whatever they do on other clusters.
   */
  lemma FetchTargetRefAsksOnlyItsCluster(get1: (Cluster, ObjectKey) -> GetResult,
                                         get2: (Cluster, ObjectKey) -> GetResult,
                                         clusterName: Cluster, canary: Canary)
    requires forall k :: get1(clusterName, k) == get2(clusterName, k)
    ensures FetchTargetRef(get1, clusterName, canary) == FetchTargetRef(get2, clusterName, canary)
  {
  }

  /**
   * The outcome is the outcome of a Get of the target's key, and depends on
   * the canary only through its target name and namespace. The first ensures
   * only spells out the key; the second, with
   * FetchTargetRefAsksOnlyItsCluster, is the independence fact.
   */
  lemma FetchTargetRefLooksUpTarget(get: (Cluster, ObjectKey) -> GetResult,
                                    clusterName: Cluster, a: Canary, b: Canary)
    ensures FetchTargetRef(get, clusterName, a) == get(clusterName, ObjectKey(a.targetRefName, a.namespace))
    ensures a.targetRefName == b.targetRefName && a.namespace == b.namespace ==>
      FetchTargetRef(get, clusterName, a) == FetchTargetRef(get, clusterName, b)
  {
  }
}
