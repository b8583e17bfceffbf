/**
 * The parsed configuration the core runs on: the ordered filters, the GitHub
 * approval settings and the server's sleep interval.
 */
module Configuration {
  import opened Expr
  import opened Review

  /** time.Duration: a signed 64-bit count of nanoseconds. */
  type Duration = d: int | -0x8000_0000_0000_0000 <= d <= 0x7FFF_FFFF_FFFF_FFFF

  /**
   * One filter: the prefetches it asks for, its compiled condition, the
   * actions a match contributes, and whether a match ends the evaluation.
   */
  datatype Filter = Filter(
    name: string,
    prefetches: seq<string>,
    condition: Condition,
    actions: seq<string>,
    haltOnMatch: bool)

  /** The configured sleep interval is the value time.ParseDuration gave (zero when it failed). */
  datatype Config = Config(filters: seq<Filter>, approval: ApprovalPolicy, sleepInterval: Duration)
}
