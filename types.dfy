/** The records the service passes between its parts: the normalised error
    event, the code analysis, the two webhook payload shapes, and the
    section structure of a filed issue's body. */
module Types {
  import opened Wrappers

  datatype Source = Slack | Sentry | CloudWatch

  datatype Severity = Error | Warning | Critical

  /** A JavaScript `Date`: milliseconds since the epoch, or the invalid date
      that `new Date(text)` yields for text it cannot parse. */
  datatype Date = Instant(ms: int) | InvalidDate

  /** An event's metadata record; `None` stands for a key whose value is
      `undefined`. */
  type Metadata = map<string, Option<string>>

  datatype ErrorEvent = ErrorEvent(
    source: Source,
    timestamp: Date,
    message: string,
    stackTrace: Option<string>,
    environment: Option<string>,
    severity: Option<Severity>,
    metadata: Option<Metadata>)

  /** Confidence is a real number; the service only ever produces 0.6 and
      0.8 and raises them by 0.1 up to 1.0. */
  datatype ErrorAnalysis = ErrorAnalysis(
    errorType: string,
    affectedFile: Option<string>,
    affectedLine: Option<nat>,
    suggestedFix: Option<string>,
    confidence: real)

  // The chat-ops webhook payload.

  datatype SlackField = SlackField(title: string, value: string, short: Option<bool>)

  datatype SlackAttachment = SlackAttachment(
    fallback: Option<string>,
    color: Option<string>,
    title: Option<string>,
    text: Option<string>,
    fields: Option<seq<SlackField>>)

  datatype SlackPayload = SlackPayload(
    text: Option<string>,
    attachments: Option<seq<SlackAttachment>>)

  // The error-tracker webhook payload. An empty `functionName` stands for a
  // frame whose function is missing.

  datatype SentryFrame = SentryFrame(
    filename: string,
    functionName: string,
    lineno: nat,
    contextLine: Option<string>)

  datatype SentryEvent = SentryEvent(
    id: string,
    timestamp: string,
    frames: Option<seq<SentryFrame>>)

  datatype SentryIssueMetadata = SentryIssueMetadata(value: Option<string>, typeName: Option<string>)

  datatype SentryIssue = SentryIssue(
    id: string,
    title: string,
    culprit: Option<string>,
    level: Option<string>,
    metadata: Option<SentryIssueMetadata>)

  datatype SentryData = SentryData(issue: Option<SentryIssue>, event: Option<SentryEvent>)

  datatype SentryPayload = SentryPayload(action: string, data: SentryData)

  /** The sections of an automatically filed issue's body, in the order they
      are written. Labels that fall back to "unknown" are already resolved. */
  datatype Section =
    | Details(source: Source, severity: string, timestampMs: int, environment: string)
    | MessageBlock(text: string)
    | StackTraceBlock(text: string)
    | AnalysisBlock(errorType: string, affectedFile: string, affectedLine: string,
                    confidence: real, suggestedAction: string)
    | MetadataBlock(entries: Metadata)
    | Footer
}
