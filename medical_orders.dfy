/** The MedicalOrders component's state: the physician `orders` list, which
    nothing ever writes, and the `suggestions` list, which the Accept and
    Reject handlers replace wholesale. A user action is a click on the
    Accept or Reject button of one rendered suggestion; the buttons exist
    only while that suggestion is actionable. */
module MedicalOrders {
  import opened OrderModel
  import opened OrderItem

  /** The ids of a list, in order. */
  function Ids(xs: seq<Order>): (ids: seq<string>)
    ensures |ids| == |xs|
  {
    if xs == [] then [] else [xs[0].id] + Ids(xs[1..])
  }

  /** No two records share an id. */
  predicate UniqueIds(xs: seq<Order>)
  {
    forall i, j :: 0 <= i < j < |xs| ==> xs[i].id != xs[j].id
  }

  /** `prev.map(s => s.id === id ? {...s, status: st} : s)`. */
  function SetStatus(prev: seq<Order>, id: string, st: Status): (next: seq<Order>)
    ensures |next| == |prev|
    ensures forall i :: 0 <= i < |prev| ==> next[i].(status := prev[i].status) == prev[i]
    ensures forall i :: 0 <= i < |prev| ==> next[i].status == if prev[i].id == id then Some(st) else prev[i].status
  {
    if prev == [] then []
    else [if prev[0].id == id then prev[0].(status := Some(st)) else prev[0]] + SetStatus(prev[1..], id, st)
  }

  /** `handleAccept`: every record with the id becomes accepted, whatever
      its kind or status was; nothing else changes. */
  function HandleAccept(prev: seq<Order>, id: string): (next: seq<Order>)
    ensures |next| == |prev|
    ensures forall i :: 0 <= i < |prev| && prev[i].id == id ==> next[i] == prev[i].(status := Some(Accepted))
    ensures forall i :: 0 <= i < |prev| && prev[i].id != id ==> next[i] == prev[i]
  {
    SetStatus(prev, id, Accepted)
  }

  /** `handleReject`: every record with the id becomes rejected, whatever
      its kind or status was; nothing else changes. */
  function HandleReject(prev: seq<Order>, id: string): (next: seq<Order>)
    ensures |next| == |prev|
    ensures forall i :: 0 <= i < |prev| && prev[i].id == id ==> next[i] == prev[i].(status := Some(Rejected))
    ensures forall i :: 0 <= i < |prev| && prev[i].id != id ==> next[i] == prev[i]
  {
    SetStatus(prev, id, Rejected)
  }

  /** The handlers keep the ids and their order. */
  lemma {:induction false} SetStatusKeepsIds(prev: seq<Order>, id: string, st: Status)
    ensures Ids(SetStatus(prev, id, st)) == Ids(prev)
  {
    if prev != [] {
      SetStatusKeepsIds(prev[1..], id, st);
    }
  }

  /** An id that no record carries leaves the list as it was. */
  lemma UnknownIdIsNoOp(prev: seq<Order>, id: string, st: Status)
    requires id !in Ids(prev)
    ensures SetStatus(prev, id, st) == prev
  {
    forall i | 0 <= i < |prev| ensures prev[i].id != id {
      IdsAt(prev, i);
    }
  }

  lemma {:induction false} IdsAt(xs: seq<Order>, i: int)
    requires 0 <= i < |xs|
    ensures Ids(xs)[i] == xs[i].id
  {
    if i > 0 {
      IdsAt(xs[1..], i - 1);
    }
  }

  /** A second update of the same id overrides the first. */
  lemma LastUpdateWins(prev: seq<Order>, id: string, first: Status, second: Status)
    ensures SetStatus(SetStatus(prev, id, first), id, second) == SetStatus(prev, id, second)
  {
  }

  /** Both handlers are idempotent. */
  lemma HandlersIdempotent(prev: seq<Order>, id: string)
    ensures HandleAccept(HandleAccept(prev, id), id) == HandleAccept(prev, id)
    ensures HandleReject(HandleReject(prev, id), id) == HandleReject(prev, id)
  {
    LastUpdateWins(prev, id, Accepted, Accepted);
    LastUpdateWins(prev, id, Rejected, Rejected);
  }

  /** Updates of two different ids do not interfere. */
  lemma UpdatesOfDistinctIdsCommute(prev: seq<Order>, a: string, sa: Status, b: string, sb: Status)
    requires a != b
    ensures SetStatus(SetStatus(prev, a, sa), b, sb) == SetStatus(SetStatus(prev, b, sb), a, sa)
  {
  }

  /** On their own the handlers do not enforce the lifecycle: Reject turns
      an accepted record into a rejected one. */
  lemma HandlerAloneReversesAcceptance()
    ensures var o := Order("suggestion-1", AiSuggestion, "t", Some(Accepted), None, None, None);
            HandleReject([o], o.id) == [o.(status := Some(Rejected))]
  {
  }

  /** After an update the view of each record differs from before at most
      in the checkbox, the "Accepted" badge and the Accept/Reject buttons. */
  lemma UpdateKeepsRestOfView(prev: seq<Order>, id: string, st: Status, i: int)
    requires 0 <= i < |prev|
    ensures var before, after := Render(prev[i]), Render(SetStatus(prev, id, st)[i]);
            after.(checked := before.checked, acceptedBadge := before.acceptedBadge, actions := before.actions) == before
    ensures prev[i].id == id ==> Render(SetStatus(prev, id, st)[i]).checked == (st == Accepted)
    ensures prev[i].id == id ==>
              (Render(SetStatus(prev, id, st)[i]).actions <==> st == Pending && prev[i].kind == AiSuggestion)
  {
    var o := SetStatus(prev, id, st)[i];
    assert o == prev[i].(status := o.status);
    StatusOnlyMovesStatusView(prev[i], o.status);
  }

  // ---------------------------------------------------------------------
  // The session

  /** The component's two lists. */
  datatype Session = Session(orders: seq<Order>, suggestions: seq<Order>)

  /** A click on the Accept or Reject button of the suggestion at `index`. */
  datatype Action = ClickAccept(index: nat) | ClickReject(index: nat)

  /** The button the action clicks is rendered. */
  predicate Offered(s: Session, a: Action)
  {
    a.index < |s.suggestions| && Actionable(s.suggestions[a.index])
  }

  /** One user action. A button that is not rendered cannot be clicked, so
      such an action leaves the session as it is; a rendered one calls its
      handler with the id of the suggestion it belongs to. */
  function Step(s: Session, a: Action): (t: Session)
    ensures t.orders == s.orders
    ensures Ids(t.suggestions) == Ids(s.suggestions)
    ensures !Offered(s, a) ==> t == s
  {
    if !Offered(s, a) then s
    else
      var id := s.suggestions[a.index].id;
      SetStatusKeepsIds(s.suggestions, id, Accepted);
      SetStatusKeepsIds(s.suggestions, id, Rejected);
      match a
      case ClickAccept(_) => s.(suggestions := HandleAccept(s.suggestions, id))
      case ClickReject(_) => s.(suggestions := HandleReject(s.suggestions, id))
  }

  /** The actions applied one at a time, in the order the user issues them. */
  function Run(s: Session, actions: seq<Action>): (t: Session)
    decreases |actions|
  {
    if actions == [] then s else Run(Step(s, actions[0]), actions[1..])
  }

  /** How one record may change in one step: not at all, or from actionable
      to accepted or rejected with every other field kept. */
  predicate Advances(before: Order, after: Order)
  {
    after == before
    || (Actionable(before) && after.status in {Some(Accepted), Some(Rejected)} && after.(status := before.status) == before)
  }

  lemma AdvancesTransitive(a: Order, b: Order, c: Order)
    requires Advances(a, b) && Advances(b, c)
    ensures Advances(a, c)
  {
  }

  lemma {:induction false} IdsDetermineUnique(xs: seq<Order>, ys: seq<Order>)
    requires Ids(xs) == Ids(ys)
    ensures |xs| == |ys|
    ensures forall i :: 0 <= i < |xs| ==> xs[i].id == ys[i].id
    ensures UniqueIds(xs) <==> UniqueIds(ys)
  {
    forall i | 0 <= i < |xs| ensures xs[i].id == ys[i].id {
      IdsAt(xs, i);
      IdsAt(ys, i);
    }
  }

  /** The clicked suggestion is resolved by a rendered click: accepted
      (ticked, with the badge) or rejected, and in either case no longer
      actionable, so its buttons disappear. */
  lemma StepResolvesTarget(s: Session, a: Action)
    requires Offered(s, a)
    ensures var o := Step(s, a).suggestions[a.index];
            && o.status == (if a.ClickAccept? then Some(Accepted) else Some(Rejected))
            && !Actionable(o)
            && (Render(o).checked && Render(o).acceptedBadge <==> a.ClickAccept?)
            && !Render(o).actions
  {
  }

  /** With unique ids a step changes at most the clicked suggestion, and
      that one only from pending to accepted or rejected. */
  lemma StepOnlyAdvances(s: Session, a: Action)
    requires UniqueIds(s.suggestions)
    ensures |Step(s, a).suggestions| == |s.suggestions|
    ensures forall k :: 0 <= k < |s.suggestions| ==> Advances(s.suggestions[k], Step(s, a).suggestions[k])
    ensures forall k :: 0 <= k < |s.suggestions| && k != a.index ==> Step(s, a).suggestions[k] == s.suggestions[k]
  {
  }

  /** Clicking twice is clicking once: the second click finds no button. */
  lemma StepIdempotent(s: Session, a: Action)
    ensures Step(Step(s, a), a) == Step(s, a)
  {
    if Offered(s, a) {
      StepResolvesTarget(s, a);
    }
  }

  /** A whole session of clicks: the physician orders never change, ids
      keep their order, and every suggestion only moves forward through
      its lifecycle. */
  lemma {:induction false} RunOnlyAdvances(s: Session, actions: seq<Action>)
    requires UniqueIds(s.suggestions)
    ensures Run(s, actions).orders == s.orders
    ensures Ids(Run(s, actions).suggestions) == Ids(s.suggestions)
    ensures UniqueIds(Run(s, actions).suggestions)
    ensures |Run(s, actions).suggestions| == |s.suggestions|
    ensures forall k :: 0 <= k < |s.suggestions| ==> Advances(s.suggestions[k], Run(s, actions).suggestions[k])
    decreases |actions|
  {
    if actions != [] {
      var s1 := Step(s, actions[0]);
      StepOnlyAdvances(s, actions[0]);
      IdsDetermineUnique(s.suggestions, s1.suggestions);
      RunOnlyAdvances(s1, actions[1..]);
      var t := Run(s, actions);
      assert t == Run(s1, actions[1..]);
      forall k | 0 <= k < |s.suggestions| ensures Advances(s.suggestions[k], t.suggestions[k]) {
        AdvancesTransitive(s.suggestions[k], s1.suggestions[k], t.suggestions[k]);
      }
    }
  }

  /** Once accepted or rejected, a suggestion stays exactly as it is for the
      rest of the session. */
  lemma ResolvedSuggestionIsFrozen(s: Session, actions: seq<Action>, k: int)
    requires UniqueIds(s.suggestions)
    requires 0 <= k < |s.suggestions|
    requires s.suggestions[k].status in {Some(Accepted), Some(Rejected)}
    ensures |Run(s, actions).suggestions| == |s.suggestions|
    ensures Run(s, actions).suggestions[k] == s.suggestions[k]
  {
    RunOnlyAdvances(s, actions);
  }

  /** With a repeated id the gate is not enough: accepting the pending twin
      also rewrites the rejected one. */
  lemma DuplicateIdsBreakLifecycle()
    ensures var rejected := Order("suggestion-1", AiSuggestion, "a", Some(Rejected), None, None, None);
            var pending := rejected.(status := Some(Pending));
            var s := Session([], [rejected, pending]);
            && Offered(s, ClickAccept(1))
            && Step(s, ClickAccept(1)).suggestions[0].status == Some(Accepted)
  {
  }

  // ---------------------------------------------------------------------
  // The seed data

  const MOCK_ORDERS: seq<Order> := [
    Order("order-4", Physician, "blood test TSH labs today for fatigue", None, None, None,
          Some("Patient reports fatigue, order TSH labs today")),
    Order("order-5", AiSuggestion, "Influenza vaccination - Annual", Some(Accepted), Some(Medium),
          Some([Evidence("CDC", "Seasonal Influenza Vaccination Recommendations",
                         "https://cdc.gov/flu/professionals/vaccination/",
                         Some("Annual influenza vaccination recommended for all persons aged \U{E2}\U{2030}\U{A5}6 months"))]),
          None)
  ]

  const MOCK_SUGGESTIONS: seq<Order> := [
    Order("suggestion-1", AiSuggestion, "Pneumococcal vaccination - PPSV23", Some(Pending), Some(High),
          Some([Evidence("CDC", "Pneumococcal Vaccination Guidelines",
                         "https://cdc.gov/vaccines/vpd/pneumo/",
                         Some("PPSV23 recommended for adults 65+ and high-risk conditions")),
                Evidence("USPSTF", "Pneumococcal Vaccination in Adults",
                         "https://uspreventiveservicestaskforce.org/uspstf/recommendation/pneumococcal-vaccination-adults",
                         Some("Grade A recommendation for pneumococcal vaccination"))]),
          None),
    Order("suggestion-2", AiSuggestion, "COVID-19 booster vaccination", Some(Pending), Some(Medium),
          Some([Evidence("CDC", "COVID-19 Booster Recommendations",
                         "https://cdc.gov/coronavirus/2019-ncov/vaccines/booster-shot.html",
                         Some("Updated COVID-19 boosters recommended annually"))]),
          None)
  ]

  /** The session as the page first renders it. */
  const INITIAL: Session := Session(MOCK_ORDERS, MOCK_SUGGESTIONS)

  /** Whatever the user clicks, the physician orders stay the seed list and
      each seeded suggestion keeps its id and position. */
  lemma SessionKeepsSeedOrders(actions: seq<Action>)
    ensures Run(INITIAL, actions).orders == MOCK_ORDERS
    ensures Ids(Run(INITIAL, actions).suggestions) == ["suggestion-1", "suggestion-2"]
  {
    assert MOCK_SUGGESTIONS[0].id != MOCK_SUGGESTIONS[1].id;
    RunOnlyAdvances(INITIAL, actions);
  }

  /** Accepting "suggestion-1": it is ticked and badged, its buttons go,
      "suggestion-2" is untouched, and it stays in the suggestions list. */
  lemma AcceptFirstSeedSuggestion()
    ensures var t := Step(INITIAL, ClickAccept(0));
            && t.suggestions[0] == MOCK_SUGGESTIONS[0].(status := Some(Accepted))
            && Render(t.suggestions[0]).checked && Render(t.suggestions[0]).acceptedBadge
            && !Render(t.suggestions[0]).actions
            && t.suggestions[1] == MOCK_SUGGESTIONS[1]
            && t.orders == MOCK_ORDERS
  {
    assert Offered(INITIAL, ClickAccept(0));
  }

  /** Rejecting "suggestion-2" and then trying to accept it: the second
      click has no button, so the record stays rejected. */
  lemma RejectThenAcceptSecondSeedSuggestion()
    ensures var t := Run(INITIAL, [ClickReject(1), ClickAccept(1)]);
            && t.suggestions[1] == MOCK_SUGGESTIONS[1].(status := Some(Rejected))
            && !Render(t.suggestions[1]).actions
            && !Render(t.suggestions[1]).checked
  {
    var t1 := Step(INITIAL, ClickReject(1));
    assert Offered(INITIAL, ClickReject(1));
    assert !Offered(t1, ClickAccept(1));
    assert Run(INITIAL, [ClickReject(1), ClickAccept(1)]) == Run(t1, [ClickAccept(1)]);
    assert Run(t1, [ClickAccept(1)]) == Run(Step(t1, ClickAccept(1)), []);
  }

  /** Accepting an id no suggestion carries changes nothing. */
  lemma AcceptUnknownSeedId()
    ensures HandleAccept(MOCK_SUGGESTIONS, "does-not-exist") == MOCK_SUGGESTIONS
  {
  }

  /** The first physician order is labelled "Order 4". */
  lemma SeedOrderLabel()
    ensures Label(MOCK_ORDERS[0]) == "Order 4"
  {
    var o := MOCK_ORDERS[0];
    assert o.id == "order" + "-" + "4";
    LabelOfStemAndNumber(o, "order", "4");
  }

  /** The first suggestion is labelled "Suggested order 1". */
  lemma SeedSuggestionLabel()
    ensures Label(MOCK_SUGGESTIONS[0]) == "Suggested order 1"
  {
    var o := MOCK_SUGGESTIONS[0];
    assert o.id == "suggestion" + "-" + "1";
    LabelOfStemAndNumber(o, "suggestion", "1");
  }
}
