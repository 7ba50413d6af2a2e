/** The numeric limits of the application's configuration class. */
module Config {
  /** Fewest characters a summary may have to pass the guardrail. */
  const MinSummaryLength: nat := 100
  /** Most characters a summary may have to pass the guardrail. */
  const MaxSummaryLength: nat := 200000
  /** How many questions the quiz prompt asks for. */
  const NumQuizQuestions: nat := 5
}
