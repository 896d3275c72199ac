/** The readback decision over configured surfaces, and what its report licenses. */
module Convergence {
  import opened State

  /** One surface and what reading it gives; `None` is a read error. */
  datatype Surface = Surface(id: string, reading: Option<string>)

  datatype PredicateResult = PredicateResult(passed: bool, sources: seq<string>)

  datatype Sighting = Sighting(evidence: Option<Evidence>, lifecycle: Option<PredicateResult>)

  datatype ConvergenceReport = ConvergenceReport(version: string, binaryAtTarget: bool,
                                                 hostLifecycle: Option<PredicateResult>)

  datatype ReportRead = NoReport | Reported(report: ConvergenceReport) | Corrupt

  predicate Contains(text: string, part: string) {
    exists i :: 0 <= i <= |text| - |part| && OccursAt(text, part, i)
  }

  predicate OccursAt(text: string, part: string, i: nat)
    requires i <= |text| - |part|
  {
    text[i..i + |part|] == part
  }

  predicate Converged(surface: Surface, expected: string) {
    surface.reading.Some? && Contains(surface.reading.value, expected)
  }

  predicate AllConverged(surfaces: seq<Surface>, expected: string) {
    forall i :: 0 <= i < |surfaces| ==> Converged(surfaces[i], expected)
  }

  function Ids(surfaces: seq<Surface>): (ids: seq<string>)
    ensures |ids| == |surfaces|
  {
    seq(|surfaces|, i requires 0 <= i < |surfaces| => surfaces[i].id)
  }

  predicate Identified(surfaces: seq<Surface>) {
    && (forall i :: 0 <= i < |surfaces| ==> surfaces[i].id != "")
    && (forall i, j :: 0 <= i < j < |surfaces| ==> surfaces[i].id != surfaces[j].id)
  }

  /** Surfaces must have names, each its own. */
  method Admissible(surfaces: seq<Surface>) returns (r: bool)
    ensures r <==> Identified(surfaces)
  {
    var ids := {};
    for i := 0 to |surfaces|
      invariant Identified(surfaces[..i])
      invariant ids == set k | 0 <= k < i :: surfaces[k].id
    {
      if surfaces[i].id == "" || surfaces[i].id in ids {
        return false;
      }
      ids := ids + {surfaces[i].id};
    }
    assert surfaces[..|surfaces|] == surfaces;
    r := true;
  }

  class Convergence {
    const surfaces: seq<Surface>
    const expectedTarget: string
    var observed: Sighting

    constructor (surfaces: seq<Surface>, expectedTarget: string)
      requires Identified(surfaces)
      ensures this.surfaces == surfaces && this.expectedTarget == expectedTarget && observed == Sighting(None, None)
    {
      this.surfaces := surfaces;
      this.expectedTarget := expectedTarget;
      observed := Sighting(None, None);
    }

    /** Read the surfaces in order until one has not converged. */
    method ReadSurfaces() returns (result: PredicateResult)
      ensures result.passed <==> AllConverged(surfaces, expectedTarget)
      ensures result.passed ==> result.sources == Ids(surfaces)
      ensures !result.passed ==>
                exists k :: 0 <= k < |surfaces| && result.sources == [surfaces[k].id]
                            && !Converged(surfaces[k], expectedTarget) && AllConverged(surfaces[..k], expectedTarget)
    {
      var sources := [];
      for k := 0 to |surfaces|
        invariant AllConverged(surfaces[..k], expectedTarget)
        invariant sources == Ids(surfaces[..k])
      {
        if !Converged(surfaces[k], expectedTarget) {
          return PredicateResult(false, [surfaces[k].id]);
        }
        sources := sources + [surfaces[k].id];
        assert surfaces[..k + 1] == surfaces[..k] + [surfaces[k]];
      }
      assert surfaces[..|surfaces|] == surfaces;
      result := PredicateResult(true, sources);
    }

    /** Accept exactly valid evidence of the target with every surface converged, and remember
        the evidence and the surfaces' verdict for the report. */
    method Evaluate(evidence: Evidence, target: string, verifierPid: nat) returns (r: Result<Option<string>>)
      modifies this
      ensures r.Failure? <==> !evidence.Validate(verifierPid)
      ensures r.Failure? ==> r.error == Invalid(HostEvidenceInvalid) && observed == old(observed)
      ensures r.Success? ==> (r.value.None? <==> evidence.version == target && AllConverged(surfaces, expectedTarget))
      ensures r.Success? ==> observed.evidence == Some(evidence)
      ensures r.Success? && (evidence.version != target || surfaces == []) ==>
                observed.lifecycle == old(observed).lifecycle
      ensures r.Success? && evidence.version == target && surfaces != [] ==>
                observed.lifecycle.Some?
                && (observed.lifecycle.value.passed <==> AllConverged(surfaces, expectedTarget))
    {
      if !evidence.Validate(verifierPid) {
        return Failure(Invalid(HostEvidenceInvalid));
      }
      observed := observed.(evidence := Some(evidence));
      if evidence.version != target {
        return Success(Some("live process reports " + evidence.version + ", expected " + target));
      }
      if surfaces == [] {
        return Success(None);
      }
      var result := ReadSurfaces();
      observed := observed.(lifecycle := Some(result));
      return Success(if result.passed then None
                     else Some("lifecycle surface " + result.sources[0] + " did not converge"));
    }

    function Report(version: string): ConvergenceReport
      reads this
    {
      ConvergenceReport(
        version,
        observed.evidence.Some? && observed.evidence.value.version == version,
        if observed.lifecycle.Some? then observed.lifecycle
        else if surfaces != [] then Some(PredicateResult(false, []))
        else None)
    }
  }

  /** May the previous manager be retired on this report? */
  predicate Retires(read: ReportRead) {
    read.Reported? && read.report.hostLifecycle.Some? && read.report.hostLifecycle.value.passed
  }

  /** The report of one decision licenses retirement exactly when there were surfaces to read,
      the evidence was of the target, and every surface had converged: never more than was observed. */
  method DecideAndReport(surfaces: seq<Surface>, expected: string, evidence: Evidence, target: string, verifierPid: nat)
    returns (accepted: bool, report: ConvergenceReport)
    requires Identified(surfaces)
    ensures accepted <==>
              evidence.Validate(verifierPid) && evidence.version == target && AllConverged(surfaces, expected)
    ensures accepted ==> report.binaryAtTarget
    ensures Retires(Reported(report)) <==> accepted && surfaces != []
  {
    var convergence := new Convergence(surfaces, expected);
    var r := convergence.Evaluate(evidence, target, verifierPid);
    accepted := r.Success? && r.value.None?;
    report := convergence.Report(target);
  }
}
