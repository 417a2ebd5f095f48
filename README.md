# Booking storefront core, modelled in Dafny

This project models the booking-and-payment workflow of a sports-facility
storefront:

- The client-held basket of line items: rentals, program enrollments,
  drop-in sessions and training packages.
- The basket sheet, which assigns participants to items and runs checkout.
- The booking route, which turns the posted basket into enrollments and
  facility rentals in the remote store.
- The payment webhook, which confirms or cancels those records when the
  payment processor reports an outcome, and appends payment, invoice,
  refund and purchased-package records.
- Four small shaping helpers:
  - the participant-selection dialog;
  - facility grouping by sport and type;
  - the account's bookings route;
  - the programs-by-day route.

The remote store and the payment processor are oracles. Their replies are
parameters: a create mutation answers `Created(id)`, `Errors(messages)` or
`NoData`, and signature verification answers `Verified(event)` or
`SignatureRejected`. A store answer can also be one the route cannot read
(`Unreadable`): a failed request, a body that is not JSON, or a JSON `null`.
The booking route is modelled with such answers for every store call, and
the account route for its identity query and its two data queries. The
webhook's unreadable replies are not modelled (see "Left out"). Money is in integer minor units throughout.

Each source file that changes state step by step is modelled imperatively:

- The basket is a `class` whose `items` sequence the methods reassign.
- The sheet, the dialog and the store are classes with `modifies` frames.
- The booking loop, the webhook's update loops and the grouping `reduce`
  are methods with loop invariants.

Each such method is proved against a pure specification function. The
properties of the workflow are lemmas about those functions.

Behaviours of the code that a reader might not expect, all of which the
model follows:

- `addItem` assigns no id and checks no uniqueness, so basket ids may repeat
  or be absent.
- Checkout refuses only *program* items without a participant. Drop-in
  items without one only disable the checkout button.
- The booking route creates records already `"confirmed"`.
- An answer the booking route cannot read is not caught. The route stops at
  that item and returns no `results`, while the bookings it created before
  stay in the store, confirmed.
- The webhook overwrites a booking's status whatever it was. A cancelled
  booking becomes confirmed again on a later success event, so the
  statuses are not terminal.
- The webhook writes payment and refund status `"completed"`, which is not
  among the store's status options. `PaymentCompleted` and
  `RefundCompleted` mark this.
- The account route computes each dependent's enrollments but does not
  return them.

## Model

| member | source | states |
|---|---|---|
| Common.Find | src/components/ParticipantSelector.tsx:56 | `find` by id: `None` exactly when no participant has the id, otherwise the first one that has it |
| BasketContext.Basket.constructor | src/contexts/BasketContext.tsx:28 | a new basket is empty |
| BasketContext.Sum | src/contexts/BasketContext.tsx:42-44 | the total of an empty basket is 0, and it is never negative when no price is |
| BasketContext.Basket.AddItem | src/contexts/BasketContext.tsx:30-32 | the item is appended at the end and every earlier item keeps its place; the total grows by exactly its price |
| BasketContext.Basket.RemoveItem | src/contexts/BasketContext.tsx:34-36 | the basket becomes the items whose id differs from the removed id; the total drops by exactly the prices of the removed items |
| BasketContext.Basket.ClearBasket | src/contexts/BasketContext.tsx:38-40 | the basket is empty and its total is 0 |
| BasketContext.SumPermutation | src/contexts/BasketContext.tsx:42-44 | the total depends only on which items the basket holds, not their order |
| BasketContext.RemovalPartition | src/contexts/BasketContext.tsx:34-36 | kept and removed items together are the old basket item for item; their totals add up to the old total; every removed item carries the id |
| BasketContext.WithoutMembership | src/contexts/BasketContext.tsx:35 | an item survives a removal exactly when it was in the basket under another id |
| BasketContext.OnlyMembership | src/contexts/BasketContext.tsx:35 | an item is removed exactly when it was in the basket under the removed id |
| BasketContext.WithoutAppend | src/contexts/BasketContext.tsx:35 | removal works piecewise over concatenation, so survivors keep their relative order |
| BasketContext.WithoutAbsent | src/contexts/BasketContext.tsx:34-36 | removing an id no item carries leaves the basket unchanged and removes nothing |
| BasketContext.WithoutIdempotent | src/contexts/BasketContext.tsx:34-36 | removing an id twice is the same as removing it once |
| BasketContext.AddKeepsDuplicateIds | src/contexts/BasketContext.tsx:30-32 | adding an item whose id is already present keeps both items under that id |
| BookingsRoute.LinkFor | src/app/api/bookings/route.ts:34-65 | an enrollment connects the item's participant id as the participant exactly when it is the user's own id or that item's own lookup finds a user, and otherwise connects it as a dependent |
| BookingsRoute.MutationFor | src/app/api/bookings/route.ts:49-65 | every mutation is for the current user with status "confirmed"; program items send program enrollments and drop-ins drop-in enrollments, with the item's program, the participant link, and for a drop-in its session; rental items send rentals with the item's facility, start and end |
| BookingsRoute.EntryFor | src/app/api/bookings/route.ts:87-97 | a result is an enrollment only for program or drop-in items and a rental only for rental items, each carrying the created id; an error result occurs exactly when nothing was created, with the first non-empty error message or else the kind's default message |
| BookingsRoute.BookItem | src/app/api/bookings/route.ts:32-217 | one pass of the loop makes exactly the item's calls up to any answer it cannot read, reports whether it met one, and otherwise yields the item's entry |
| BookingsRoute.Post | src/app/api/bookings/route.ts:5-219 | with no session: 401 and no store call; with no or empty items: 400 and no store call; when the identity answer cannot be read: the uncaught error after the identity query only; with an unknown user: 401 after the identity query only; otherwise the store calls are those of the items up to the first answer that cannot be read, and the response is that uncaught error when there is one and one result per bookable item otherwise |
| BookingsRoute.BookableIndicesExact | src/app/api/bookings/route.ts:30-218 | the positions that get a result are exactly the program, drop-in and rental items, each listed once, in increasing order |
| BookingsRoute.ResultsAligned | src/app/api/bookings/route.ts:30-218 | when no answer is unreadable, result `j` belongs to the `j`-th bookable item and is built from the store's reply to that item's own mutation |
| BookingsRoute.FailureIsLocal | src/app/api/bookings/route.ts:87-97 | when the answer for one item is readable either way, whether the route aborts does not depend on it, and changing it changes at most that item's result |
| BookingsRoute.MutationsAreConfirmedForUser | src/app/api/bookings/route.ts:52-201 | every mutation among the calls made creates a record for the current user with status "confirmed" |
| BookingsRoute.NothingBookableNoCalls | src/app/api/bookings/route.ts:30-219 | a basket with no program, drop-in or rental item cannot abort and yields no results and no store call beyond the identity query |
| BookingsRoute.StopsAtFirstUnreadable | src/app/api/bookings/route.ts:24-204 | an answer the route cannot read aborts it at that item: the calls are those of the earlier items followed by that item's calls up to the unreadable answer, and no later item is looked at |
| BookingsRoute.EarlierMutationsSent | src/app/api/bookings/route.ts:31-218 | until an answer is unreadable, every bookable item has had its mutation sent, so bookings created before an abort remain in the store |
| BookingsRoute.ThrowsAgree | src/app/api/bookings/route.ts:31-218 | whether the route aborts depends only on which answers are unreadable, not on what readable answers say |
| BasketSheet.TrimStart | src/components/BasketSheet.tsx:74 | leading trim removes only white space and leaves a suffix that starts with a non-space |
| BasketSheet.TrimEnd | src/components/BasketSheet.tsx:74 | trailing trim removes only white space and leaves a prefix that ends with a non-space |
| BasketSheet.TrimBlank | src/components/BasketSheet.tsx:74-79 | the trimmed name is empty exactly when the name is all white space; otherwise it is a slice of the name with no white space at either edge |
| BasketSheet.ReassignedShape | src/components/BasketSheet.tsx:60-71 | after reassignment every item under the edited id is replaced by a single copy at the end, which has the new participant, the same id and all other fields unchanged; the remaining items keep their order; the total changes by the removed and re-added prices |
| BasketSheet.SelectedParticipantId | src/components/BasketSheet.tsx:124-125 | the dropdown shows the item's participant when set; otherwise the account holder when there are no dependents; otherwise the empty placeholder |
| BasketSheet.MissingParticipant | src/components/BasketSheet.tsx:110-113 | true exactly when some program or drop-in item has no participant |
| BasketSheet.ProgramsWithoutParticipant | src/components/BasketSheet.tsx:259-261 | contains exactly the program items (not drop-ins) that have no participant |
| BasketSheet.EnrollmentIds | src/components/BasketSheet.tsx:284-286 | an id is collected exactly when some result is an enrollment with that id |
| BasketSheet.RentalIds | src/components/BasketSheet.tsx:287-289 | an id is collected exactly when some result is a rental with that id |
| BasketSheet.TrainingPackageIds | src/components/BasketSheet.tsx:290-293 | an id is collected exactly when some training-package item carries it as a non-empty package id |
| BasketSheet.EnrollmentIdsFollowOrder | src/components/BasketSheet.tsx:284-286 | the enrollment id list follows result order: collecting over joined results joins the collections |
| BasketSheet.RentalIdsFollowOrder | src/components/BasketSheet.tsx:287-289 | the rental id list follows result order |
| BasketSheet.PackageIdsFollowOrder | src/components/BasketSheet.tsx:290-293 | the training-package id list follows basket order |
| BasketSheet.CheckoutGuards | src/components/BasketSheet.tsx:252-268 | checkout makes no request exactly when there is no user or a program item lacks a participant; drop-in items do not stop it |
| BasketSheet.Checkout | src/components/BasketSheet.tsx:250-326 | checkout sends to login exactly when there is no user; every request posts the whole basket; the payment form is shown exactly when there is a user, every program item has a participant, the booking reply is readable and the intent succeeds, and then with the processor's client secret |
| BasketSheet.CheckoutIntent | src/components/BasketSheet.tsx:284-311 | a requested payment intent asks for the basket total, is for the current user, and carries the created enrollment and rental ids and the basket's training-package ids |
| BasketSheet.Sheet.constructor | src/components/BasketSheet.tsx:40-44 | no dependents, no open add form, empty name field, no payment form, no client secret |
| BasketSheet.Sheet.LoadDependents | src/components/BasketSheet.tsx:47-56 | the dependents become the fetched list, or empty when there is no user, the fetch fails or the list is missing |
| BasketSheet.Sheet.HandleParticipantChange | src/components/BasketSheet.tsx:60-71 | reassigns the item when the id names the user or a dependent, and otherwise leaves the basket unchanged |
| BasketSheet.Sheet.OnSelectChange | src/components/BasketSheet.tsx:152-160 | "add new" opens the add form for the item with an empty name and leaves the basket alone; any other value reassigns the item as above and closes the form |
| BasketSheet.Sheet.HandleAddDependent | src/components/BasketSheet.tsx:73-107 | a blank name posts nothing and changes nothing; a refused creation or a failed re-fetch changes nothing; otherwise the trimmed name is posted, the dependents are re-fetched, the form closes and the item is reassigned to the new dependent |
| BasketSheet.Sheet.HandleCheckout | src/components/BasketSheet.tsx:251-327 | the outcome is the checkout function of the user, the basket and the two replies; only a successful intent opens the payment form, with the processor's client secret; the basket is not changed |
| PaymentWebhook.FirstUnknown | src/app/api/payments/webhook/route.ts:197-205 | the package loop stops at the first id missing from the catalogue; every earlier id is in the catalogue |
| PaymentWebhook.OnSucceeded | src/app/api/payments/webhook/route.ts:33-238 | a success event keeps the catalogue and the set of bookings, only appends records, adds at most one payment and one invoice, and no refund |
| PaymentWebhook.OnPaymentFailed | src/app/api/payments/webhook/route.ts:240-333 | a failure event keeps the catalogue and the set of bookings and adds at most one payment and nothing else |
| PaymentWebhook.Handle | src/app/api/payments/webhook/route.ts:10-380 | whatever the event and the replies, the handler keeps the catalogue and the set of bookings, only appends to the payment, invoice, refund and purchased-package records, adds at most one payment, invoice and refund, and answers any rejection with 400 or 500 |
| PaymentWebhook.SetAllEffect | src/app/api/payments/webhook/route.ts:118-174 | the status updates give every listed known id the new status; other ids keep theirs; no record appears or disappears |
| PaymentWebhook.SetAllTwice | src/app/api/payments/webhook/route.ts:118-174 | applying the same status list twice is applying it once |
| PaymentWebhook.GrantsShape | src/app/api/payments/webhook/route.ts:177-235 | each known package id yields one purchased package, in list order, with the package's session count remaining and none used |
| PaymentWebhook.RejectedSignatureChangesNothing | src/app/api/payments/webhook/route.ts:11-28 | a missing signature header, or a signature that fails verification, is answered 400 and mutates nothing |
| PaymentWebhook.SucceededRecordErrors | src/app/api/payments/webhook/route.ts:66-115 | on success, a payment-record error answers 500 and changes nothing; an invoice-record error answers 500 with only the payment recorded |
| PaymentWebhook.SucceededConfirms | src/app/api/payments/webhook/route.ts:33-238 | on success, every listed enrollment and rental the store knows becomes confirmed and the others keep their status; one payment, at most one invoice and one purchased package per listed package are added; no refund is added |
| PaymentWebhook.FailedCancels | src/app/api/payments/webhook/route.ts:240-333 | on failure, whatever the store answers to the payment record, every listed enrollment and rental it knows becomes cancelled and the others keep their status; only a failed payment may be added |
| PaymentWebhook.RefundAndUnhandled | src/app/api/payments/webhook/route.ts:335-372 | a refund adds at most one completed refund of the refunded amount and changes no booking; any other event changes nothing; both are acknowledged |
| PaymentWebhook.SucceededRedelivery | src/app/api/payments/webhook/route.ts:33-238 | a success event delivered twice, with the package list the checkout always sends, and when the store accepts the second payment record for the same intent, sets the same statuses as once but records a second payment, a second invoice when the store creates one, and grants every listed package a second time |
| PaymentWebhook.Store.UpdateEnrollments | src/app/api/payments/webhook/route.ts:118-146 | the enrollment loop sets the statuses as specified and changes nothing else |
| PaymentWebhook.Store.UpdateRentals | src/app/api/payments/webhook/route.ts:148-174 | the rental loop sets the statuses as specified and changes nothing else |
| PaymentWebhook.Store.CreatePackages | src/app/api/payments/webhook/route.ts:177-235 | the package loop appends the grants up to the first unknown package and reports whether it reached the end |
| PaymentWebhook.Store.ApplyList | src/app/api/payments/webhook/route.ts:118-174 | an absent list changes nothing; a malformed list stops the handler; a parsed list applies the status updates |
| PaymentWebhook.Store.Post | src/app/api/payments/webhook/route.ts:10-380 | the new store state and the response are those of the handler's specification |
| ParticipantSelector.InitialSelectionsMeaning | src/components/ParticipantSelector.tsx:39-44 | every item id gets as initial selection the last such item's participant, or the account holder's id |
| ParticipantSelector.InitialSelections | src/components/ParticipantSelector.tsx:39-44 | the initial selections have exactly the item ids as keys, and the last item's id maps to its participant or the account holder |
| ParticipantSelector.Selector.Everyone | src/components/ParticipantSelector.tsx:38 | the participant list is the account holder followed by the dependents, in order |
| ParticipantSelector.Selector.constructor | src/components/ParticipantSelector.tsx:39-44 | the selections start as the initial selections |
| ParticipantSelector.Selector.HandleSelect | src/components/ParticipantSelector.tsx:47-49 | only the selection for the given item changes |
| ParticipantSelector.Selector.HandleSave | src/components/ParticipantSelector.tsx:51-58 | the result holds an item id exactly when it is an item's id and its selection names a listed participant; the value is that participant, whose id is the selection |
| ParticipantSelector.Selector.SaveAfterOpen | src/components/ParticipantSelector.tsx:39-57 | saving straight after opening gives a uniquely identified item its own participant when it has one, and the account holder when it has none |
| FacilityGroups.Group | src/components/FacilityGroups.tsx:44-56 | the built dictionary is the specified grouping: an entry per sport present, within it an entry per type present for that sport, holding exactly that bucket |
| FacilityGroups.GroupedMeaning | src/components/FacilityGroups.tsx:44-56 | the grouping has a sport or type entry only when some facility has that sport and type, and each entry is that bucket, in list order |
| FacilityGroups.BucketEmpty | src/components/FacilityGroups.tsx:46-51 | a bucket is empty exactly when no facility has its sport and type, so no shown bucket is empty |
| FacilityGroups.BucketCounts | src/components/FacilityGroups.tsx:44-56 | every facility appears in its own bucket exactly as often as in the list, and in no other bucket |
| FacilityGroups.TypeLabel | src/components/FacilityGroups.tsx:76 | the heading has the type's length and replaces every underscore, and only underscores, with a space |
| FacilityGroups.TypeLabelClean | src/components/FacilityGroups.tsx:76 | a heading holds no underscore, and a type without one is its own heading |
| FacilityGroups.DisplayHours | src/components/FacilityGroups.tsx:91-92 | the shown hours are never blank: the facility's times, or "08:00" and "22:00" when they are empty |
| AccountBookings.OfDependentMembership | src/app/api/account/bookings/route.ts:111-113 | a dependent's enrollments are exactly those linked to that dependent |
| AccountBookings.GroupByDependent | src/app/api/account/bookings/route.ts:108-114 | one entry per dependent, in order, with the dependent's id and name |
| AccountBookings.GroupByDependentExact | src/app/api/account/bookings/route.ts:108-114 | each dependent's entry holds exactly the enrollments whose dependent is that dependent |
| AccountBookings.Tag | src/app/api/account/bookings/route.ts:127-129 | every enrollment is kept in order, with participant type "participant" added |
| AccountBookings.Ids | src/app/api/account/bookings/route.ts:75 | the dependents' ids, in order |
| AccountBookings.GetGuards | src/app/api/account/bookings/route.ts:6-70 | no session gives 401 with no query; an unreadable identity answer throws after the identity query; an unresolved user gives 401 after the identity query; a main-query error gives 500 |
| AccountBookings.Get | src/app/api/account/bookings/route.ts:5-133 | the route returns bookings only with a session, a readable identity answer naming a user, and a main-query answer with data; it refuses only with 401 or 500; an unreadable identity answer throws after the identity query only; its queries start with the identity query, number at most three, and there are none exactly when there is no session |
| AccountBookings.DependentQueryOnlyWithDependents | src/app/api/account/bookings/route.ts:72-106 | the dependents' query runs exactly when the user has a dependent, and asks for exactly their ids |
| AccountBookings.SuccessShape | src/app/api/account/bookings/route.ts:127-133 | the response holds the user's participant enrollments, each tagged and otherwise unchanged, and the rentals, or `[]` when missing; it does not depend on the dependents' query data |
| ProgramsRoute.SelectedMeansOverlap | src/app/api/programs/route.ts:49 | the filter selects an active program when some instant of the day falls within it; for a program that ends no earlier than it starts, it selects only such programs |
| ProgramsRoute.SelectMembership | src/app/api/programs/route.ts:49 | the store returns exactly the catalogue programs the filter selects |
| ProgramsRoute.Programs | src/app/api/programs/route.ts:89-100 | the mapping keeps count and order, and row `k` is the reshaping of program `k` |
| ProgramsRoute.ProgramsCopyFields | src/app/api/programs/route.ts:89-100 | id, name, description, price, start and end are copied unchanged; the facility id and name are "" when there is no facility |
| ProgramsRoute.GetGuards | src/app/api/programs/route.ts:33-107 | a missing date gives 400 with no store call; a missing store URL gives 500 with no store call; every store failure gives 500 |
| ProgramsRoute.Get | src/app/api/programs/route.ts:29-108 | the store is queried exactly when the date is given and the store URL is configured; programs are listed exactly when the store also answers with data; every refusal is 400 or 500 |
| ProgramsRoute.ListedAreThoseOnTheDay | src/app/api/programs/route.ts:49-101 | every listed program is the reshaping of an active catalogue program that runs on the day, and every such program is listed |

## Left out

- The available-slots generator. Its route is not among the modelled files; the rentals page only consumes it.
- Network calls: the store's GraphQL endpoint and the payment processor's SDK. Their answers are parameters, and the text of GraphQL queries, including interpolated values, is not modelled.
- Signature verification, which is an oracle that either yields the event or fails.
- Authentication and session routes, the auth hook, and every page and UI component, including rendering, toasts, navigation and the basket's open/closed state.
- Persistence of the basket to client-local storage, which the modelled provider does not do.
- Floating-point money: `Math.round(total * 100)` at checkout and `amount / 100` in the webhook. Amounts are integer minor units, so both conversions are the identity.
- Date and locale formatting. The programs route takes the day as whole days since the epoch and instants as milliseconds.
- A booking request whose body is not JSON. The route reads the body before its guards, so the failure is not modelled.
- FailureIsLocal: holds for store answers the route can read. An answer it cannot read (a failed request, a body that is not JSON, or a JSON `null`) is not local: it aborts the route with no results, which StopsAtFirstUnreadable states.
- The programs route on a date parameter that is not a calendar date: the store's reaction to the malformed filter it builds.
- Concurrent webhook deliveries. Only sequential redelivery is modelled.
- The text of thrown exceptions, such as a failed JSON parse, a failed signature or a missing package. The model records only which cause produced the 400 or the uncaught error.
- PaymentWebhook.Handle: a store request that fails, or a reply the handler cannot read as JSON, is not modelled; the model's replies are the parsed ones. The handler catches such a throw and answers 400, possibly part-way: after the payment record when the invoice reply cannot be read, after only some status updates when a request fails inside the enrollment or rental loop, with nothing cancelled when the failed-payment record request fails, and on a refund request that fails.
- PaymentWebhook.Handle: the store's replies to the status updates and to purchased-package creation are not read by the handler. The model takes an unknown id to change nothing, and takes every purchased package to be created.
- A metadata id list that parses to a string or to an array of non-strings. The model has a list of ids or a list that fails to parse or iterate.
- Object key order of the grouped facilities, and keys that name properties inherited by JavaScript objects, which the model treats as ordinary keys.
- BasketSheet.Sheet.HandleAddDependent: a creation reply without the new dependent, which the model does not represent.
- Display-only item fields such as names and dates, and the booking results' nested record fields beyond their ids.
