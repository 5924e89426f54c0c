/** The closed event taxonomy: three variants, each reporting a string tag,
    and the superimposed envelope the history endpoint sends. */
module Events {
  import opened Wrappers
  import opened Boards

  /** The wire tags. The first two are the history discriminators, the third
      is the webhook discriminator. */
  const EstimateIssueTag: string := "estimateIssue"
  const TransferIssueTag: string := "transferIssue"
  const IssueTransferTag: string := "issue_transfer"

  /** An absolute instant decoded from the wire timestamp. The model never
      looks inside it; it is only copied and compared. */
  datatype Instant = Instant(unixNanos: int)

  datatype Event =
      /** An issue had its estimate set, changed or unset. */
    | EstimateIssue(userID: int, createdAt: Instant, fromEstimate: Option<Estimate>, toEstimate: Option<Estimate>)
      /** An issue moved from one pipeline to another. */
    | TransferIssue(userID: int, createdAt: Instant, fromPipeline: Option<Pipeline>, toPipeline: Option<Pipeline>)
      /** The webhook notification of a move; every field is the raw form text. */
    | IssueTransferWebhook(
        gitHubURL: string, organization: string, repo: string, userName: string,
        issueNumber: string, issueTitle: string, toPipelineName: string, fromPipelineName: string)

  /** The variants the history endpoint can produce. */
  predicate IsHistory(e: Event) {
    !e.IssueTransferWebhook?
  }

  predicate IsHistoryTag(t: string) {
    t == EstimateIssueTag || t == TransferIssueTag
  }

  /** The tag of each variant, with the webhook variant reporting its own
      discriminator. The source returns the estimate tag for the webhook
      variant instead; that behaviour is `EventTypeAsWritten`. */
  function EventType(e: Event): (t: string)
    ensures e.EstimateIssue? <==> t == EstimateIssueTag
    ensures e.TransferIssue? <==> t == TransferIssueTag
    ensures e.IssueTransferWebhook? <==> t == IssueTransferTag
  {
    match e
    case EstimateIssue(_, _, _, _) => EstimateIssueTag
    case TransferIssue(_, _, _, _) => TransferIssueTag
    case IssueTransferWebhook(_, _, _, _, _, _, _, _) => IssueTransferTag
  }

  /** `EventType()` exactly as the three Go methods are written. */
  function EventTypeAsWritten(e: Event): (t: string)
    ensures IsHistory(e) ==> t == EventType(e)
    ensures e.IssueTransferWebhook? ==> t == EstimateIssueTag
  {
    match e
    case EstimateIssue(_, _, _, _) => EstimateIssueTag
    case TransferIssue(_, _, _, _) => TransferIssueTag
    case IssueTransferWebhook(_, _, _, _, _, _, _, _) => EstimateIssueTag
  }

  /** The tag map is total and injective over the closed set: equal tags
      mean the same variant. */
  lemma EventTypeDeterminesVariant(a: Event, b: Event)
    ensures EventType(a) == EventType(b) <==>
      (a.EstimateIssue? && b.EstimateIssue?) || (a.TransferIssue? && b.TransferIssue?)
      || (a.IssueTransferWebhook? && b.IssueTransferWebhook?)
  {
  }

  /** As written, the tag map sends two variants to the same tag, and the
      webhook variant never reports the webhook discriminator. */
  lemma AsWrittenTagCollision(w: Event, e: Event)
    requires w.IssueTransferWebhook? && e.EstimateIssue?
    ensures EventTypeAsWritten(w) == EventTypeAsWritten(e)
    ensures EventTypeAsWritten(w) != IssueTransferTag
    ensures EventType(w) != EventType(e)
  {
  }

  /** One history record as it arrives: the fields of every history variant
      laid over each other, each optional independently of the others. */
  datatype Envelope = Envelope(
    userID: int, tag: string, createdAt: Instant,
    fromEstimate: Option<Estimate>, toEstimate: Option<Estimate>,
    fromPipeline: Option<Pipeline>, toPipeline: Option<Pipeline>)
}
