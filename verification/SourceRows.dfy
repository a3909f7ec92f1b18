/**
 * Rows of ingestion sources and the status writes on them. Usage metering keeps its
 * already-recorded flags on the same rows.
 */
module SourceRows {
  datatype ExtractionStatus = Waiting | Running | Done | Broken

  /** `org` and `space` are the tenant scope every status write is restricted to. */
  datatype SourceRow = SourceRow(
    org: int,
    space: int,
    status: ExtractionStatus,
    contentType: string,
    tokenCount: nat,
    completionRecorded: bool,
    failureRecorded: bool)

  predicate Unsettled(s: ExtractionStatus) {
    s.Waiting? || s.Running?
  }

  predicate InTenant(row: SourceRow, org: int, space: int) {
    row.org == org && row.space == space
  }

  /** The rows differ at most in their statuses. */
  predicate StatusOnly(s0: map<int, SourceRow>, s1: map<int, SourceRow>) {
    s1.Keys == s0.Keys && forall sid :: sid in s0 ==> s1[sid] == s0[sid].(status := s1[sid].status)
  }

  /** The rows differ at most in their flags. */
  predicate FlagsOnly(s0: map<int, SourceRow>, s1: map<int, SourceRow>) {
    && s1.Keys == s0.Keys
    && (forall sid :: sid in s0 ==>
          s1[sid] == s0[sid].(completionRecorded := s1[sid].completionRecorded,
                              failureRecorded := s1[sid].failureRecorded))
  }
}
