/**
 * The records read from the two bundled fixtures: the brand list and the
 * per-brand audit records and dashboard snapshots. All of them are values;
 * nothing in the application updates them.
 */
module Fixtures {
  import opened Wrappers

  datatype Brand = Brand(id: string, name: string, domain: string, industry: string)

  /** A bounded rating; `caption` is the source's `label` (a reserved word here), `trend` the optional free-form trend string. */
  datatype Score = Score(value: int, maxValue: int, caption: string, trend: Option<string>)

  datatype InsightType = Positive | Negative | Neutral
  datatype Severity = Critical | High | Medium | Low
  /** The three-valued scale shared by a recommendation's priority and its effort. */
  datatype Level = High | Medium | Low

  datatype Insight = Insight(id: string, kind: InsightType, title: string, description: string)
  datatype Issue = Issue(id: string, severity: Severity, title: string, description: string, affectedArea: string)
  datatype Recommendation = Recommendation(
    id: string, priority: Level, effort: Level,
    title: string, description: string, expectedImpact: string)

  datatype AuditModule = AuditModule(
    id: string, name: string, description: string, score: Score,
    insights: seq<Insight>, issues: seq<Issue>, recommendations: seq<Recommendation>)

  datatype AuditRecord = AuditRecord(brandId: string, timestamp: string, modules: seq<AuditModule>)

  datatype DashboardSnapshot = DashboardSnapshot(
    aiVisibilityScore: Score, trustScore: Score, keywordCoverage: Score, lastAuditDate: string)

  function ModuleId(m: AuditModule): string { m.id }
  function BrandId(b: Brand): string { b.id }
}
