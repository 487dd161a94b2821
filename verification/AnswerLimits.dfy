/** What the conversation store accepts as an answer; the conversation reckons with it. */
module AnswerLimits {
  import opened Texts
  import opened Wrappers

  const MAX_ANSWER_UNITS: nat := 120_000
  const MAX_CITATION_BYTES: nat := 65_536

  /** What an answer must be to be committed; the citations come as JSON text. */
  predicate Committable(content: Text, citations: Option<Text>) {
    && 0 < |Trim(content)| <= MAX_ANSWER_UNITS
    && (citations.Some? ==> Utf8Length(citations.value) <= MAX_CITATION_BYTES)
  }
}
