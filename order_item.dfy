/** What the OrderItem component derives from one record: the priority
    colour and glyph, the label, the checkbox and "Accepted" badge, the
    evidence disclosure, the transcript note and the Accept/Reject gate.
    Markup and styling beyond these values are not modelled. */
module OrderItem {
  import opened OrderModel
  import opened StringSplit

  /** The glyphs `getPriorityIcon` can return. */
  datatype Icon = AlertTriangle | Info

  const DESTRUCTIVE := "text-destructive"
  const WARNING := "text-warning"
  const MUTED := "text-muted-foreground"

  /** `getPriorityColor`: the text colour class for a priority. */
  function PriorityColor(p: Option<Priority>): (c: string)
    ensures c in {DESTRUCTIVE, WARNING, MUTED}
  {
    match p
    case Some(High) => DESTRUCTIVE
    case Some(Medium) => WARNING
    case Some(Low) => MUTED
    case None => MUTED
  }

  /** `getPriorityIcon`: the glyph for a priority, if any. */
  function PriorityIcon(p: Option<Priority>): (i: Option<Icon>)
    ensures i.Some? ==> p.Some?
  {
    match p
    case Some(High) => Some(AlertTriangle)
    case Some(Medium) => Some(Info)
    case _ => None
  }

  /** The priority's tag as it is stored: "high", "medium" or "low". */
  function PriorityTag(p: Priority): string
  {
    match p
    case High => "high"
    case Medium => "medium"
    case Low => "low"
  }

  /** `toUpperCase` on one character, for the ASCII letters the tags use. */
  function UpperChar(c: char): char
  {
    if 'a' <= c <= 'z' then (c as int - 32) as char else c
  }

  /** `toUpperCase` on a string, character by character. */
  function UpperCase(s: string): (u: string)
    ensures |u| == |s|
    ensures forall k :: 0 <= k < |s| ==> u[k] == UpperChar(s[k])
  {
    if s == [] then [] else [UpperChar(s[0])] + UpperCase(s[1..])
  }

  /** `priority.toUpperCase()`: the caption of the priority indicator. */
  function PriorityCaption(p: Priority): (s: string)
    ensures s == UpperCase(PriorityTag(p))
  {
    match p
    case High => "HIGH"
    case Medium => "MEDIUM"
    case Low => "LOW"
  }

  /** The two stylings agree: a priority is emphasised by colour exactly
      when it gets a glyph, and each emphasised priority has its own colour
      and its own glyph. */
  lemma PriorityStylingAgrees(p: Option<Priority>)
    ensures PriorityIcon(p).Some? <==> PriorityColor(p) != MUTED
    ensures PriorityIcon(p).Some? <==> p in {Some(High), Some(Medium)}
    ensures PriorityColor(p) == DESTRUCTIVE <==> PriorityIcon(p) == Some(AlertTriangle)
    ensures PriorityColor(p) == WARNING <==> PriorityIcon(p) == Some(Info)
    ensures PriorityColor(Some(High)) == DESTRUCTIVE && PriorityIcon(Some(High)) == Some(AlertTriangle)
    ensures PriorityColor(Some(Medium)) == WARNING && PriorityIcon(Some(Medium)) == Some(Info)
    ensures p in {Some(Low), None} ==> PriorityColor(p) == MUTED && PriorityIcon(p) == None
  {
  }

  /** The second `-`-separated segment of an id, as the template literal
      renders `id.split("-")[1]`: "undefined" when the id has no `-`. */
  function IdNumber(id: string): (n: string)
    ensures '-' !in id ==> n == "undefined"
    ensures '-' !in n
  {
    var parts := Split(id, '-');
    if |parts| >= 2 then parts[1] else "undefined"
  }

  /** The label's leading words for each kind. */
  function KindPrefix(k: Kind): (s: string)
    ensures |s| >= 1 && s[|s| - 1] == ' '
    ensures s == "Order " <==> k == Physician
  {
    if k == Physician then "Order " else "Suggested order "
  }

  /** The label next to the checkbox. */
  function Label(o: Order): (l: string)
    ensures |KindPrefix(o.kind)| <= |l|
    ensures l[..|KindPrefix(o.kind)|] == KindPrefix(o.kind)
    ensures l[|KindPrefix(o.kind)|..] == IdNumber(o.id)
  {
    KindPrefix(o.kind) + IdNumber(o.id)
  }

  /** An id built from separator-free segments is labelled by its second
      segment, or by "undefined" when it has only one. */
  lemma {:induction false} LabelOfSegments(o: Order, segments: seq<string>)
    requires |segments| >= 1
    requires forall k :: 0 <= k < |segments| ==> '-' !in segments[k]
    requires o.id == Join(segments, '-')
    ensures Label(o) == KindPrefix(o.kind) + (if |segments| >= 2 then segments[1] else "undefined")
  {
    SplitJoin(segments, '-');
  }

  /** The common shape: "<stem>-<n>" with neither part holding a `-`. */
  lemma LabelOfStemAndNumber(o: Order, stem: string, n: string)
    requires '-' !in stem && '-' !in n
    requires o.id == stem + "-" + n
    ensures o.kind == Physician ==> Label(o) == "Order " + n
    ensures o.kind == AiSuggestion ==> Label(o) == "Suggested order " + n
  {
    assert Join([stem, n], '-') == stem + "-" + n;
    LabelOfSegments(o, [stem, n]);
  }

  /** The checkbox is ticked when the record is accepted. It is ticked
      exactly when the "Accepted" badge shows, and never beside the buttons. */
  predicate Checked(o: Order)
    ensures Checked(o) <==> ShowsAcceptedBadge(o)
    ensures Checked(o) ==> !Actionable(o)
  {
    o.status == Some(Accepted)
  }

  /** The "Accepted" badge is shown when the record is accepted: never
      for a pending, rejected or status-less record. */
  predicate ShowsAcceptedBadge(o: Order)
    ensures ShowsAcceptedBadge(o) ==> o.status !in {None, Some(Pending), Some(Rejected)}
    ensures o.status == Some(Accepted) ==> ShowsAcceptedBadge(o)
  {
    o.status == Some(Accepted)
  }

  /** Accept and Reject are offered only for a pending AI suggestion.
      A resolved record is never offered them. */
  predicate Actionable(o: Order)
    ensures Actionable(o) ==> o.kind == AiSuggestion
    ensures o.status in {None, Some(Accepted), Some(Rejected)} ==> !Actionable(o)
  {
    o.kind == AiSuggestion && o.status == Some(Pending)
  }

  /** Accepting or rejecting a record closes its gate; accepting it ticks
      the box and shows the badge, rejecting it does neither. */
  lemma ResolvingClosesGate(o: Order)
    ensures !Actionable(o.(status := Some(Accepted))) && !Actionable(o.(status := Some(Rejected)))
    ensures Checked(o.(status := Some(Accepted))) && ShowsAcceptedBadge(o.(status := Some(Accepted)))
    ensures !Checked(o.(status := Some(Rejected))) && !ShowsAcceptedBadge(o.(status := Some(Rejected)))
  {
  }

  /** The priority indicator beside the "AI Suggestion" badge. */
  datatype PriorityBadge = PriorityBadge(color: string, icon: Option<Icon>, caption: string)

  /** One rendered evidence entry; `link` is what its button opens. */
  datatype EvidenceRow = EvidenceRow(source: string, title: string, summary: Option<string>, link: string)

  /** JavaScript truthiness of an optional string: present and non-empty. */
  predicate Truthy(s: Option<string>)
  {
    s.Some? && s.value != ""
  }

  function RowOf(e: Evidence): (r: EvidenceRow)
    ensures r.summary.Some? <==> Truthy(e.summary)
  {
    EvidenceRow(e.source, e.title, if Truthy(e.summary) then e.summary else None, e.url)
  }

  /** The evidence list rendered entry by entry, in stored order. */
  function Rows(es: seq<Evidence>): (rs: seq<EvidenceRow>)
    ensures |rs| == |es|
    ensures forall k :: 0 <= k < |es| ==> rs[k].source == es[k].source && rs[k].title == es[k].title
    ensures forall k :: 0 <= k < |es| ==> rs[k].link == es[k].url
    ensures forall k :: 0 <= k < |es| ==> (rs[k].summary.Some? <==> Truthy(es[k].summary))
    ensures forall k :: 0 <= k < |es| && rs[k].summary.Some? ==> rs[k].summary == es[k].summary
  {
    if es == [] then [] else [RowOf(es[0])] + Rows(es[1..])
  }

  /** Everything the component shows for one record that depends on data. */
  datatype ItemView = ItemView(
    labelText: string,
    checked: bool,
    aiBadge: bool,
    priority: Option<PriorityBadge>,
    acceptedBadge: bool,
    text: string,
    transcript: Option<string>,
    evidence: Option<seq<EvidenceRow>>,
    actions: bool)

  /** The view of one record. */
  function Render(o: Order): (v: ItemView)
    ensures v.checked == v.acceptedBadge == (o.status == Some(Accepted))
    ensures v.actions <==> o.kind == AiSuggestion && o.status == Some(Pending)
    ensures v.actions ==> !v.checked
    ensures v.priority.Some? <==> o.kind == AiSuggestion && o.priority.Some?
    ensures v.evidence.Some? <==> o.kind == AiSuggestion && o.evidence.Some?
    ensures v.evidence.Some? ==> |v.evidence.value| == |o.evidence.value|
    ensures v.transcript.Some? <==> Truthy(o.transcript)
    ensures v.text == o.text
    ensures v.labelText == Label(o)
    ensures v.aiBadge <==> o.kind == AiSuggestion
    ensures v.evidence.Some? ==> v.evidence.value == Rows(o.evidence.value)
  {
    var ai := o.kind == AiSuggestion;
    ItemView(
      Label(o),
      Checked(o),
      ai,
      if ai && o.priority.Some?
      then Some(PriorityBadge(PriorityColor(o.priority), PriorityIcon(o.priority), PriorityCaption(o.priority.value)))
      else None,
      ShowsAcceptedBadge(o),
      o.text,
      if Truthy(o.transcript) then o.transcript else None,
      if ai && o.evidence.Some? then Some(Rows(o.evidence.value)) else None,
      Actionable(o))
  }

  /** The status decides the checkbox, the "Accepted" badge and the
      buttons, and nothing else in the view. */
  lemma StatusOnlyMovesStatusView(o: Order, x: Option<Status>)
    ensures var before, after := Render(o), Render(o.(status := x));
            after.(checked := before.checked, acceptedBadge := before.acceptedBadge, actions := before.actions) == before
  {
    var o2 := o.(status := x);
    assert o2.id == o.id && o2.kind == o.kind;
    assert Label(o2) == Label(o);
  }

  /** A high-priority suggestion is flagged with the warning glyph in the
      destructive colour; a low one with neither glyph nor emphasis. */
  lemma PriorityBadgeOfSuggestion(o: Order)
    requires o.kind == AiSuggestion && o.priority.Some?
    ensures Render(o).priority.Some?
    ensures o.priority == Some(High) ==> Render(o).priority.value == PriorityBadge(DESTRUCTIVE, Some(AlertTriangle), "HIGH")
    ensures o.priority == Some(Medium) ==> Render(o).priority.value == PriorityBadge(WARNING, Some(Info), "MEDIUM")
    ensures o.priority == Some(Low) ==> Render(o).priority.value == PriorityBadge(MUTED, None, "LOW")
  {
  }
}
