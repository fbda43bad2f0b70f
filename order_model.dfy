/** The records shown on the medical-orders page: physician orders and
    AI-generated suggestions, with the evidence cited for a suggestion.
    The source keeps one flat record for both kinds, with optional fields;
    each optional field is an Option here. */
module OrderModel {

  datatype Option<+T> = None | Some(value: T)

  /** The record's type tag: "physician" or "ai-suggestion". */
  datatype Kind = Physician | AiSuggestion

  /** "accepted", "rejected" or "pending". */
  datatype Status = Accepted | Rejected | Pending

  /** "high", "medium" or "low". */
  datatype Priority = High | Medium | Low

  /** A cited source backing a suggestion. */
  datatype Evidence = Evidence(source: string, title: string, url: string, summary: Option<string>)

  /** One order or suggestion. */
  datatype Order = Order(
    id: string,
    kind: Kind,
    text: string,
    status: Option<Status>,
    priority: Option<Priority>,
    evidence: Option<seq<Evidence>>,
    transcript: Option<string>)
}
