# Medical orders: the suggestion accept/reject lifecycle

A Dafny model of the logic in the `MedicalOrders` page component. The page
shows two lists. One holds physician orders. The other holds AI-generated
suggestions, each backed by evidence. A suggestion can be accepted or
rejected. The model covers:

- the `Order` and `Evidence` records (`order_model.dfy`);
- what the `OrderItem` component derives from one record
  (`order_item.dfy`): the priority colour and glyph, the label built from
  the id, the checkbox and "Accepted" badge, the evidence rows, the
  transcript note, and the gate that offers Accept and Reject;
- JavaScript's `String.prototype.split` on one character, used by the label
  (`string_split.dfy`);
- the `handleAccept` and `handleReject` handlers, the session's two lists,
  clicks on rendered buttons, and the lifecycle they produce together
  (`medical_orders.dfy`).

Everything is pure functions over values. The React state hook is modelled
as a session value that a step replaces wholesale. The handlers rewrite
`status` unconditionally. The one-way lifecycle Pending → Accepted / Rejected
therefore comes from the gate, not from the handlers:
`MedicalOrders.Step` clicks a button only when it is rendered. The lifecycle
also needs unique ids. `DuplicateIdsBreakLifecycle` shows a repeated id
letting a gated click rewrite an already-rejected twin.

Facts about the code that shape the model:

- The handlers have no pending check and no type check
  (medical-orders.tsx:246, 250).
- Accepted suggestions stay in `suggestions`; nothing moves them into
  `orders`, and `setOrders` is never called (medical-orders.tsx:241).
- Nothing lists pending suggestions or actioned orders separately.

## Model

| member | source | states |
|---|---|---|
| `OrderItem.PriorityColor` | components/medical-orders.tsx:113-124 | the colour is always one of the three classes destructive, warning, muted |
| `OrderItem.PriorityIcon` | components/medical-orders.tsx:126-135 | a glyph is produced only when a priority is present |
| `OrderItem.PriorityStylingAgrees` | components/medical-orders.tsx:113-135 | high → destructive colour and warning triangle; medium → warning colour and info glyph; low and absent → muted colour and no glyph; a glyph appears exactly when the colour is not muted, and each glyph goes with one colour |
| `OrderItem.UpperCase` | components/medical-orders.tsx:163 | `toUpperCase` keeps the length and upper-cases each character |
| `OrderItem.PriorityCaption` | components/medical-orders.tsx:163 | the caption is the priority's stored tag ("high", "medium", "low") upper-cased |
| `OrderItem.PriorityBadgeOfSuggestion` | components/medical-orders.tsx:154-165 | a suggestion with a priority shows an indicator of colour, glyph and upper-case caption, given per priority |
| `StringSplit.Split` | components/medical-orders.tsx:150 | `split("-")` yields at least one piece, no piece holds the separator, joining the pieces restores the string, and there are two or more pieces exactly when the separator occurs |
| `StringSplit.SplitJoin` | components/medical-orders.tsx:150 | splitting a join of separator-free pieces returns those pieces |
| `OrderItem.IdNumber` | components/medical-orders.tsx:150-151 | the segment never holds `-`, and is "undefined" when the id has no `-` |
| `OrderItem.KindPrefix` | components/medical-orders.tsx:149-151 | the prefix ends in a space, and it is "Order " exactly for a physician order (otherwise "Suggested order ") |
| `OrderItem.Label` | components/medical-orders.tsx:149-151 | the label is the kind's prefix followed by `IdNumber` of the id; that this is the id's second `-`-separated segment is proved in `OrderItem.LabelOfSegments` |
| `OrderItem.LabelOfSegments` | components/medical-orders.tsx:149-151 | for an id made of `-`-free segments, the label is the prefix plus the second segment, or plus "undefined" when there is only one segment |
| `OrderItem.LabelOfStemAndNumber` | components/medical-orders.tsx:149-151 | an id "stem-n" is labelled "Order n" for a physician order and "Suggested order n" for a suggestion |
| `OrderItem.Rows` | components/medical-orders.tsx:193-211 | evidence rows come in stored order, one per entry, with its source, title and link; a summary is shown exactly when it is present and non-empty |
| `OrderItem.Checked` | components/medical-orders.tsx:141 | the checkbox is ticked exactly when the "Accepted" badge shows, and never on a record that offers Accept/Reject |
| `OrderItem.ShowsAcceptedBadge` | components/medical-orders.tsx:169-173 | the badge shows for an accepted record and never for a pending, rejected or status-less one |
| `OrderItem.Actionable` | components/medical-orders.tsx:216 | only AI suggestions are actionable, and never one that is accepted, rejected or has no status |
| `OrderItem.ResolvingClosesGate` | components/medical-orders.tsx:141-232 | setting a record accepted or rejected closes its gate; accepted ticks the box and shows the badge, rejected does neither |
| `OrderItem.Render` | components/medical-orders.tsx:141-232 | the label is `Label`; the "AI Suggestion" badge shows exactly for suggestions; checkbox ticked iff badge shown iff accepted; buttons iff pending AI suggestion; buttons exclude a ticked box; priority and evidence only for suggestions, the evidence being exactly its rows in stored order; transcript only when non-empty; the text is shown unchanged |
| `OrderItem.StatusOnlyMovesStatusView` | components/medical-orders.tsx:137-237 | changing only the status changes only the checkbox, the badge and the buttons |
| `MedicalOrders.SetStatus` | components/medical-orders.tsx:245-251 | the list keeps its length; each record keeps every field except status; status becomes the new value exactly on records with the id |
| `MedicalOrders.HandleAccept` | components/medical-orders.tsx:245-247 | records with the id become accepted whatever their kind or status; all others are identical |
| `MedicalOrders.HandleReject` | components/medical-orders.tsx:249-251 | records with the id become rejected whatever their kind or status; all others are identical |
| `MedicalOrders.SetStatusKeepsIds` | components/medical-orders.tsx:246 | the ids keep their order |
| `MedicalOrders.UnknownIdIsNoOp` | components/medical-orders.tsx:245-251 | an id no record carries leaves the list equal to the old one |
| `MedicalOrders.LastUpdateWins` | components/medical-orders.tsx:245-251 | two updates of one id equal the second alone |
| `MedicalOrders.HandlersIdempotent` | components/medical-orders.tsx:245-251 | accepting, or rejecting, twice equals doing it once |
| `MedicalOrders.UpdatesOfDistinctIdsCommute` | components/medical-orders.tsx:245-251 | updates of different ids commute |
| `MedicalOrders.HandlerAloneReversesAcceptance` | components/medical-orders.tsx:249-251 | an accepted record passed to Reject becomes rejected: the handler alone does not keep the lifecycle |
| `MedicalOrders.UpdateKeepsRestOfView` | components/medical-orders.tsx:137-251 | after an update, each record's view changes at most in checkbox, badge and buttons; an updated record is ticked iff the new status is accepted, and has buttons only if set back to pending |
| `MedicalOrders.Step` | components/medical-orders.tsx:273-280 | a click never changes the physician list or the suggestion ids; a click on an unrendered button changes nothing |
| `MedicalOrders.StepResolvesTarget` | components/medical-orders.tsx:216-232 | a rendered click makes its suggestion accepted (ticked, badged) or rejected, and not actionable, so its buttons disappear |
| `MedicalOrders.StepOnlyAdvances` | components/medical-orders.tsx:245-251 | with unique ids a click changes only the clicked suggestion, and that one only from pending to accepted or rejected with its other fields kept |
| `MedicalOrders.StepIdempotent` | components/medical-orders.tsx:216 | the same click twice equals once |
| `MedicalOrders.RunOnlyAdvances` | components/medical-orders.tsx:241-251 | over any sequence of clicks the physician list stays the same, ids stay unique and in order, and every suggestion only moves forward through its lifecycle |
| `MedicalOrders.ResolvedSuggestionIsFrozen` | components/medical-orders.tsx:216 | with unique ids, once accepted or rejected, a suggestion stays identical for the rest of the session |
| `MedicalOrders.DuplicateIdsBreakLifecycle` | components/medical-orders.tsx:246 | with a repeated id, a gated accept also turns a rejected twin into an accepted record |
| `MedicalOrders.SessionKeepsSeedOrders` | components/medical-orders.tsx:241-242 | from the seed, any clicks leave the physician list equal to the seed list and the suggestion ids as suggestion-1, suggestion-2 |
| `MedicalOrders.AcceptFirstSeedSuggestion` | components/medical-orders.tsx:63-84 | accepting suggestion-1 ticks and badges it, removes its buttons, keeps it in the suggestions list and leaves suggestion-2 and the physician list alone |
| `MedicalOrders.RejectThenAcceptSecondSeedSuggestion` | components/medical-orders.tsx:85-99 | after rejecting suggestion-2 an accept click has no button, so it stays rejected, unticked and without buttons |
| `MedicalOrders.AcceptUnknownSeedId` | components/medical-orders.tsx:63-100 | accepting "does-not-exist" leaves the seed suggestions unchanged |
| `MedicalOrders.SeedOrderLabel` | components/medical-orders.tsx:39-45 | order-4 is labelled "Order 4" |
| `MedicalOrders.SeedSuggestionLabel` | components/medical-orders.tsx:64-68 | suggestion-1 is labelled "Suggested order 1" |

## Left out

- JSX layout, Tailwind classes other than the priority colours, and the UI widget and icon libraries: presentational or foreign code. Glyphs are an `Icon` value.
- The `isEvidenceOpen` and `isSuggestionsOpen` toggles: view state with no effect on the data.
- `window.open` on an evidence entry: browser I/O. The model keeps only the URL the button would open (`EvidenceRow.link`).
- React's `useState` scheduling: each update replaces the whole suggestions list at once.
- `next.config.mjs` and `app/page.tsx`: build configuration and a static page shell with no logic.
- OrderItem.PriorityColor and OrderItem.PriorityIcon take `Option<Priority>` rather than any string. Their only caller passes a record's typed priority, and every other string falls to the default branch.
- Order items in the physician list are rendered without accept or reject callbacks. A pending AI suggestion placed there would show buttons that do nothing. `Action` therefore addresses only the suggestions list, and `Render` still reports such buttons as shown.
- The handlers' lack of a pending check is kept as written. The one-way lifecycle is proved for the gate in `Step` together with unique ids, not for the handlers alone.
- MedicalOrders.SeedOrderLabel and MedicalOrders.SeedSuggestionLabel cover two of the four seed labels. The general rule for every "stem-n" id is `OrderItem.LabelOfStemAndNumber`.
- OrderItem.UpperCase upper-cases only the ASCII letters a–z; JavaScript's full Unicode case mapping is not modelled, and the tags it is applied to are ASCII.
