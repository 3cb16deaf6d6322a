/**
 * Refund and dispute records, the dispute status enum and the two request
 * schemas (`RefundSchema`, `DisputeSchema`) as validity predicates.
 */
module RefundTypes {
  import opened Wrappers

  /** The five dispute states. */
  datatype DisputeStatus = Open | Investigating | Resolved | Rejected | Escalated

  /** The string each status stands for. */
  function StatusName(s: DisputeStatus): string {
    match s
    case Open => "open"
    case Investigating => "investigating"
    case Resolved => "resolved"
    case Rejected => "rejected"
    case Escalated => "escalated"
  }

  /** The status a string names, if it names one. */
  function ParseStatus(name: string): Option<DisputeStatus> {
    if name == "open" then Some(Open)
    else if name == "investigating" then Some(Investigating)
    else if name == "resolved" then Some(Resolved)
    else if name == "rejected" then Some(Rejected)
    else if name == "escalated" then Some(Escalated)
    else None
  }

  /** Names and statuses correspond one to one: exactly the five names parse. */
  lemma StatusNamesRoundTrip(s: DisputeStatus, name: string)
    ensures ParseStatus(StatusName(s)) == Some(s)
    ensures ParseStatus(name).Some? ==> StatusName(ParseStatus(name).value) == name
    ensures ParseStatus(name).Some? <==> name in {"open", "investigating", "resolved", "rejected", "escalated"}
  {
  }

  /** Optional supporting material of a dispute. */
  datatype Evidence = Evidence(documents: seq<string>, comments: seq<string>)

  /**
   * A dispute as the management dialog reads it (`raisedBy`, `evidence`,
   * `resolution` and the timestamps are not modelled).
   */
  datatype Dispute = Dispute(
    disputeId: string,
    orderId: string,
    transactionId: string,
    status: DisputeStatus,
    reason: string)

  /** A refund request (`metadata` is not modelled). */
  datatype RefundRequest = RefundRequest(orderId: string, amount: real, reason: string)

  datatype DisputeRequest = DisputeRequest(
    orderId: string,
    transactionId: string,
    reason: string,
    evidence: Option<Evidence>)

  /** `RefundSchema`: a strictly positive amount and a non-empty reason. */
  predicate ValidRefundRequest(r: RefundRequest) {
    r.amount > 0.0 && |r.reason| >= 1
  }

  /**
   * `DisputeSchema`: a non-empty reason; evidence, when present, always carries
   * both lists, which the datatype guarantees.
   */
  predicate ValidDisputeRequest(d: DisputeRequest) {
    |d.reason| >= 1
  }

  /** Evidence is optional and its content is unconstrained. */
  lemma EvidenceIsOptional(d: DisputeRequest, e: Option<Evidence>)
    ensures ValidDisputeRequest(d) <==> ValidDisputeRequest(d.(evidence := e))
    ensures ValidDisputeRequest(d) <==> d.reason != ""
  {
  }
}
