/**
 * A client of ListCanaryDeployments that relies on its contract alone: the
 * three-cluster scenario: cluster A holds two canaries, B is unreachable and
 * C is reachable but lacks the Flagger CRD.
 */
module FlaggerScenario {
  import opened Wrappers
  import opened Flagger

  /** In a sequence of copies of `x`, `x` occurs as often as the sequence is long. */
  lemma {:induction false} CountOfConstant<T>(s: seq<T>, x: T)
    requires forall i :: 0 <= i < |s| ==> s[i] == x
    ensures multiset(s)[x] == |s|
  {
    if s != [] {
      assert s == [s[0]] + s[1..];
      assert multiset(s) == multiset{s[0]} + multiset(s[1..]);
      CountOfConstant(s[1..], x);
    }
  }

  function PodInfo(): Canary { Canary("podinfo", "apps", "podinfo") }
  function Backend(): Canary { Canary("backend", "apps", "backend") }

  /** A holds two canaries, B is unreachable, C lists no canary. */
  function ScenarioCall(): ClusteredListResult
  {
    ClusteredListResult(
      map["A" := [CanaryList([PodInfo(), Backend()])], "C" := [CanaryList([])]],
      "",
      Some(ClusteredListError([ClusterError("B", Cause("connection refused"))])))
  }

  /** Only A has the Flagger CRD. */
  function ScenarioAvailable(c: Cluster, name: string): bool { c == "A" }

  method ScenarioResults()
  {
    var results, token, errs, fatal, checked :=
      ListCanaryDeployments((opts, flag) => ScenarioCall(), ScenarioAvailable,
                            ListCanaryDeploymentsOptions("", 0, ""));
    assert fatal == None && token == "";
    var pagesA := [CanaryList([PodInfo(), Backend()])];
    assert pagesA[..0] == [] && CanaryItems(pagesA) == [PodInfo(), Backend()];
    assert HasCanaryList(pagesA) by { assert pagesA[0].CanaryList?; }
    assert "A" in results.value && results.value["A"] == [PodInfo(), Backend()];
    assert "C" in results.value && results.value["C"] == [];
    assert "B" !in results.value;
  }

  method ScenarioErrors()
  {
    var results, token, errs, fatal, checked :=
      ListCanaryDeployments((opts, flag) => ScenarioCall(), ScenarioAvailable,
                            ListCanaryDeploymentsOptions("", 0, ""));
    assert errs[0] == CanaryListError("B", Cause("connection refused"));
    var capErrors := errs[1..];
    assert forall i :: 0 <= i < |capErrors| ==> capErrors[i] == NotAvailable("C") by {
      forall i | 0 <= i < |capErrors| ensures capErrors[i] == NotAvailable("C") {
        assert capErrors[i] in capErrors;
      }
    }
    assert multiset(capErrors)[NotAvailable("C")] == 1;
    CountOfConstant(capErrors, NotAvailable("C"));
    assert errs == [CanaryListError("B", Cause("connection refused")), NotAvailable("C")];
  }
}
