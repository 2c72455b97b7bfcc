# Hospital help desk and equipment front end, modelled in Dafny

This project models the logic inside a React front end for a hospital. The
front end covers:

- help-desk tickets: raising, reviewing, assigning, accepting, resolving and closing them;
- equipment and purchase records;
- a room/bed register and a generic list editor;
- sign-in, sign-up and the route guards.

Each component becomes one Dafny module of the same name. The values a component
derives from its state (filtered lists, counts, chips, error dictionaries, records
built for submission) are functions. Lemmas state the properties these functions
promise. The handlers that change component state are methods of a class whose
fields are that component's `useState` variables. Each handler's postcondition
gives the whole new state.

A handler that awaits a server call is split at its `await`, for example
`BeginSubmit` and `EndSubmit`. Two things become parameters:

- the call's outcome, as an `ok` flag and the record the server returned;
- the current time and fresh ids.

Money, quantities and timestamps are integers. Ticket times are integer
milliseconds. Equipment and purchase dates stay strings, because the code only
tests them for emptiness.

Shared modules:

- `Types`: the records of `src/types/index.ts`.
- `Strings`: JavaScript's `trim`, `toLowerCase`, `includes`, `split`, `Number()`
  and zero-padding.
- `Seqs`: order-preserving filter, subsequence and first-occurrence dedup.
- `Forms`: the "add an error when a check fails" step and the "clear a
  field's error on edit" step that the forms share.
- `Lifecycle`: places the status rules of the different components side by
  side. The components do not agree on one ticket lifecycle, and the model
  keeps each component's own rule.

Where the type declarations and the component code disagree, the model follows
the code:

- `Reviewticket.tsx` writes the statuses "Approved" and "Rejected", which the
  status type does not contain. These become a `ReviewedTicket` with a string
  status.
- The components read `unitId` on a user and `comment` on an assigned ticket,
  which the declared types omit. These appear as optional fields.

## Model

| member | source | states |
|---|---|---|
| Types.ParseStatus | src/types/index.ts:58 | a parsed status label renders back to the same text |
| Types.StatusLabelRoundTrip | src/types/index.ts:58 | each of the five statuses parses back from its label |
| Types.ParseStatusComplete | src/types/index.ts:58 | parsing fails exactly when the text is none of the five status labels |
| Types.ParsePriority | src/types/index.ts:57 | a parsed priority label renders back to the same text |
| Types.PriorityLabelRoundTrip | src/types/index.ts:57 | each of Low, Medium, High, Critical parses back from its label |
| Types.ParseCategory | src/types/index.ts:56 | a parsed category label renders back to the same text |
| Types.CategoryLabelRoundTrip | src/types/index.ts:56 | each of the five categories parses back from its label |
| Types.LabelsInjective | src/types/index.ts:11-58 | distinct values of every union (status, priority, category, equipment status, payment method, payment status) have distinct labels |
| Types.WithStatus | src/types/index.ts:52-67 | a status overwrite sets that status and keeps every other ticket field |
| Types.AssigneeLabel | src/components/TicketManagement.tsx:381 | a present assignee is shown as itself; "Unassigned" is shown exactly when no assignee is present or the assignee is literally "Unassigned" |
| TicketDetails.InitialEditData | src/components/TicketDetailsModal.tsx:33-37 | the edit form starts at the ticket's status and priority; its assignee is the ticket's assignee when one is present and empty exactly when none is |
| TicketDetails.AddCommentAppends | src/components/TicketDetailsModal.tsx:86-100 | one comment is appended at the end with the ticket's id, the typed content, not internal, stamped now; earlier comments stay in order; only `updatedAt` and the comments change |
| TicketDetails.SavedResolvedAt | src/components/TicketDetailsModal.tsx:110-112 | the saved `resolvedAt` is now or the old value; it is never cleared, and it changes only when a ticket that was not Resolved becomes Resolved |
| TicketDetails.SavedTicket | src/components/TicketDetailsModal.tsx:105-113 | saving overwrites status, priority, assignee and `updatedAt`, and keeps the descriptive fields and the comments |
| TicketDetails.SaveResolvedAtRule | src/components/TicketDetailsModal.tsx:110-112 | `resolvedAt` becomes now when the status moves to Resolved from another status; otherwise it keeps its old value, and a set stamp stays set |
| TicketDetails.EmptyAssigneeIsUnassigned | src/components/TicketDetailsModal.tsx:304 | saving the empty assignee option shows the ticket as Unassigned |
| TicketDetails.QuickActions | src/components/TicketDetailsModal.tsx:403-440 | at most one quick action; Start Working exactly from Open, Mark as Resolved exactly from In Progress or Pending, Close exactly from Resolved |
| TicketDetails.QuickActionAdvances | src/components/TicketDetailsModal.tsx:403-440 | an offered quick action moves the ticket one stage forward, stamps `updatedAt` and keeps every other field; `resolvedAt` changes only on resolving |
| TicketDetails.QuickResolveStampsNow | src/components/TicketDetailsModal.tsx:414-428 | from In Progress or Pending the only action is Mark as Resolved, and it sets status Resolved with `resolvedAt` and `updatedAt` both now |
| TicketDetails.ClosedHasNoQuickAction | src/components/TicketDetailsModal.tsx:403-440 | a status offers no quick action exactly when it is Closed |
| TicketDetails.TicketDetailsModal.constructor | src/components/TicketDetailsModal.tsx:31-37 | no comment typed, not editing, edit form from the ticket |
| TicketDetails.TicketDetailsModal.TypeComment | src/components/TicketDetailsModal.tsx:243 | only the comment text changes |
| TicketDetails.TicketDetailsModal.ToggleEditing | src/components/TicketDetailsModal.tsx:143 | edit mode flips; nothing else changes |
| TicketDetails.TicketDetailsModal.CancelEditing | src/components/TicketDetailsModal.tsx:319 | edit mode ends without touching the edit form |
| TicketDetails.TicketDetailsModal.SelectStatus | src/components/TicketDetailsModal.tsx:275 | only the edit form's status changes |
| TicketDetails.TicketDetailsModal.SelectPriority | src/components/TicketDetailsModal.tsx:288 | only the edit form's priority changes |
| TicketDetails.TicketDetailsModal.SelectAssignee | src/components/TicketDetailsModal.tsx:301 | only the edit form's assignee changes |
| TicketDetails.TicketDetailsModal.AddComment | src/components/TicketDetailsModal.tsx:83-103 | a blank comment emits nothing and keeps the text; otherwise the ticket with the comment appended is emitted and the text is cleared |
| TicketDetails.TicketDetailsModal.SaveChanges | src/components/TicketDetailsModal.tsx:105-117 | emits the saved ticket built from the edit form and leaves edit mode |
| TicketDetails.TicketDetailsModal.Quick | src/components/TicketDetailsModal.tsx:403-440 | a quick action emits an update exactly when it is offered for the status and the modal is not editing |
| TicketManagement.FilteredTickets | src/components/TicketManagement.tsx:58-70 | the filtered list is no longer than the ticket list |
| TicketManagement.FilteredTicketsSpec | src/components/TicketManagement.tsx:58-70 | the filtered list is the order-preserving subsequence of tickets that meet search, status, priority and category, with multiplicities kept |
| TicketManagement.DefaultCriteriaNoConstraint | src/components/TicketManagement.tsx:60-66 | an empty search matches every ticket; with every option at `all`, only the search decides |
| TicketManagement.NoCriteriaShowsAll | src/components/TicketManagement.tsx:58-70 | default criteria show the whole list |
| TicketManagement.SearchIgnoresCase | src/components/TicketManagement.tsx:60-62 | lower-casing the search text does not change the result |
| TicketManagement.StatusCountExact | src/components/TicketManagement.tsx:160-188 | a status card counts exactly the tickets with that status, and never more than the total |
| TicketManagement.StatusCountsAddUp | src/components/TicketManagement.tsx:143-188 | the five status counts sum to the total |
| TicketManagement.ActiveFilters | src/components/TicketManagement.tsx:202-207 | at most four chips |
| TicketManagement.ChipOrigin | src/components/TicketManagement.tsx:202-207 | each chip comes from the block of its own kind, at that block's place |
| TicketManagement.ActiveFiltersOrder | src/components/TicketManagement.tsx:202-207 | chips appear in the order status, priority, category, search |
| TicketManagement.ActiveFiltersSpec | src/components/TicketManagement.tsx:202-207 | a chip of each kind is present exactly when that criterion is not its default, and carries that criterion's text |
| TicketManagement.NoChipsIffDefault | src/components/TicketManagement.tsx:202-207 | no chip is shown exactly when the criteria are the defaults |
| TicketManagement.TimeAgo | src/components/TicketManagement.tsx:82-90 | "Just now" below one hour or in the future; below a day, the whole hours h (1 to 23) rendered as "{h}h ago"; from a day on, the whole days d rendered as "{d}d ago" |
| TicketManagement.AgeBounds | src/components/TicketManagement.tsx:82-90 | "Just now" exactly below one hour; "{h}h ago" with h whole hours below 24; otherwise "{d}d ago" with d whole days |
| TicketManagement.FirstChars | src/components/TicketManagement.tsx:469-473 | at most one character per name part |
| TicketManagement.FirstCharsFrom | src/components/TicketManagement.tsx:469-473 | every initial is the first character of some non-empty part |
| TicketManagement.SplitPartsFromString | src/components/TicketManagement.tsx:469-473 | every character of a split part occurs in the split string |
| TicketManagement.FirstCharsAreHeads | src/components/TicketManagement.tsx:469-472 | the joined first characters are exactly the heads of the non-empty parts, in order; empty parts add nothing |
| TicketManagement.Initials | src/components/TicketManagement.tsx:469-473 | with the empty parts dropped, the first characters of the first two words, or of as many words as there are |
| TicketManagement.InitialsSpec | src/components/TicketManagement.tsx:469-473 | the initials are at most two characters, each a non-space character of the name; a name not starting with a space starts its own initials |
| TicketManagement.SplitFirstPart | src/components/TicketManagement.tsx:469-473 | a string not starting with the separator has its first character as the first part's first character |
| TicketManagement.InitialsBadge | src/components/TicketManagement.tsx:469-481 | the badge shows exactly when an assignee is present, and shows that assignee's initials |
| TicketManagement.TicketFilters.constructor | src/components/TicketManagement.tsx:50-53 | the criteria start at their defaults |
| TicketManagement.TicketFilters.TypeSearch | src/components/TicketManagement.tsx:264 | only the search text changes |
| TicketManagement.TicketFilters.SelectStatus | src/components/TicketManagement.tsx:274 | only the status filter changes |
| TicketManagement.TicketFilters.SelectPriority | src/components/TicketManagement.tsx:292 | only the priority filter changes |
| TicketManagement.TicketFilters.SelectCategory | src/components/TicketManagement.tsx:306-318 | only the category filter changes |
| TicketManagement.TicketFilters.TotalCard | src/components/TicketManagement.tsx:149-153 | the Total card resets status, priority and category and keeps the search |
| TicketManagement.TicketFilters.StatusCard | src/components/TicketManagement.tsx:160-188 | a status card sets the status filter to its status's label |
| TicketManagement.TicketFilters.ClearFilters | src/components/TicketManagement.tsx:344-349 | Clear Filters resets all four criteria |
| TicketManagement.ResetsWiden | src/components/TicketManagement.tsx:149-153 | after Clear Filters the list is whole and chip-free; after the Total card only the search constrains |
| TicketManagement.StatusCardShowsItsCount | src/components/TicketManagement.tsx:160-188 | clicking a status card on a clean filter shows exactly as many tickets as the card counts |
| AddTicket.AddedGrows | src/components/AddTicketModal.tsx:71-74 | one validation step adds the field's error exactly when its check fails |
| AddTicket.InOrderGivesFormErrors | src/components/AddTicketModal.tsx:68-78 | running the checks in source order builds exactly the error dictionary |
| AddTicket.FormErrorsSpec | src/components/AddTicketModal.tsx:68-78 | the form is valid exactly when title, description and creator are not blank and a department is chosen; one error per failing field, each with its message |
| AddTicket.CollectErrors | src/components/AddTicketModal.tsx:68-78 | the imperative validator returns the error dictionary |
| AddTicket.NewTicket | src/components/AddTicketModal.tsx:85-92 | the created ticket has the given id, `createdAt` = `updatedAt` = now, no comments, no resolution time, no attachments |
| AddTicket.NewTicketKeepsForm | src/components/AddTicketModal.tsx:85-92 | the form's values are recoverable from the created ticket |
| AddTicket.EditOnlyThatField | src/components/AddTicketModal.tsx:97-98 | a change sets its field and leaves every other field and the status |
| AddTicket.AddTicketModal.constructor | src/components/AddTicketModal.tsx:18-30 | the form starts at its defaults (status Open, category Other, priority Medium) with no errors |
| AddTicket.AddTicketModal.ValidateForm | src/components/AddTicketModal.tsx:68-78 | the errors become the error dictionary; valid exactly when it is empty |
| AddTicket.AddTicketModal.Submit | src/components/AddTicketModal.tsx:80-95 | an invalid form emits nothing; a valid one emits the new ticket, always Open |
| AddTicket.AddTicketModal.Change | src/components/AddTicketModal.tsx:97-102 | the field is set and only its (shown) error is blanked; status stays Open |
| MyTickets.AssignedUrl | src/components/MyTickets.tsx:33-39 | no user fetches nothing; admin, manager and employee each get their own assigned-tickets URL; any other role gets the empty URL |
| MyTickets.ActionRequest | src/components/MyTickets.tsx:46-55 | each known action maps to its `/tickets/{id}/<action>` endpoint; only assign uses POST, the rest PATCH; the data is passed through |
| MyTickets.ActionPathsDistinct | src/components/MyTickets.tsx:48-53 | different actions on the same ticket never share an endpoint |
| MyTickets.AfterAction | src/components/MyTickets.tsx:58-61 | a failed action, and only that, shows "Action failed" |
| MyTickets.ButtonsByRole | src/components/MyTickets.tsx:177-233 | admin sees Assign Manager only on Pending; manager always Assign Employee and Verify & Close only on Resolved; employee Accept, Update, Close always; others none |
| MyTickets.EmployeeClosesAnyStatus | src/components/MyTickets.tsx:217-233 | an employee can close a ticket whatever its status |
| MyTickets.ClicksAreKnownActions | src/components/MyTickets.tsx:179-228 | every shown button sends one of the known actions |
| MyTickets.TicketDialog.constructor | src/components/MyTickets.tsx:29-31 | no ticket selected, empty progress text, modal closed |
| MyTickets.TicketDialog.Open | src/components/MyTickets.tsx:65-69 | opening selects the ticket, shows the modal and preloads its comment or the empty text |
| MyTickets.TicketDialog.TypeComment | src/components/MyTickets.tsx:312 | only the progress text changes |
| MyTickets.TicketDialog.Close | src/components/MyTickets.tsx:267-272 | the close button hides the dialog and keeps the selected ticket and the text |
| MyTickets.TicketDialog.SubmitProgress | src/components/MyTickets.tsx:251-321 | only while the dialog is open, and only for an employee on an In Progress ticket, the update PATCH carries the comment and the dialog closes; a closed dialog, or any other case, sends nothing |
| ServiceSlip.SentCost | src/components/Serviceslip.tsx:125 | an empty or falsy extra cost is sent as 0, any other number as itself |
| ServiceSlip.ServiceSlipState.constructor | src/components/Serviceslip.tsx:40-50 | accepted exactly when the ticket is In Progress; nothing in flight; empty assignment fields |
| ServiceSlip.ServiceSlipState.BeginAccept | src/components/Serviceslip.tsx:63-68 | no request when already accepted or accepting; otherwise the In Progress PATCH is sent and an accept is in flight |
| ServiceSlip.ServiceSlipState.EndAccept | src/components/Serviceslip.tsx:72-78 | the flight ends; success sets accepted and reports the ticket In Progress, failure reports nothing |
| ServiceSlip.ServiceSlipState.Decline | src/components/Serviceslip.tsx:82-96 | once accepted nothing happens; otherwise the Closed PATCH is sent and success reports the ticket Closed and closes the slip |
| ServiceSlip.ServiceSlipState.SelectAssignee | src/components/Serviceslip.tsx:342-345 | the empty option becomes null, any other one `Number(value)` |
| ServiceSlip.ServiceSlipState.SetDeadline | src/components/Serviceslip.tsx:360 | only the deadline changes |
| ServiceSlip.ServiceSlipState.SetExtraCost | src/components/Serviceslip.tsx:369-371 | only the extra cost changes, empty or parsed |
| ServiceSlip.ServiceSlipState.SetEquipmentNote | src/components/Serviceslip.tsx:379 | only the equipment note changes |
| ServiceSlip.ServiceSlipState.Assign | src/components/Serviceslip.tsx:111-127 | only a shown section can assign; it refuses without an assignee and a deadline; a sent payload has a truthy assignee, a non-empty deadline and a finite extra cost |
| ServiceSlip.AfterAssign | src/components/Serviceslip.tsx:129-133 | success reports the server's ticket with the success notice; failure reports nothing with the failure notice |
| ServiceSlip.AcceptedSlipIsFinal | src/components/Serviceslip.tsx:63-95 | an accepted slip can neither be declined nor accepted again |
| ServiceSlip.AcceptAndDeclineReports | src/components/Serviceslip.tsx:72-90 | accept and decline report the same ticket with only the status changed, to In Progress and Closed respectively, and the two reports differ |
| ReviewList.ReviewUrl | src/components/Reviewlist.tsx:22-29 | no user fetches nothing; admin, manager and employee get `/tickets/<role>/my`; others the empty URL |
| ReviewList.AnswerAll | src/components/Reviewlist.tsx:40-46 | the matching tickets change only their status, to In Progress on accept and Pending on decline; every other ticket stays, as do length, order and ids |
| ReviewList.AnswerAndOffer | src/components/Reviewlist.tsx:127-128 | after accepting, the employee is no longer offered the ticket; after declining it stays Pending and is still offered |
| ReviewList.AnswerIdempotent | src/components/Reviewlist.tsx:40-45 | answering the same way twice is answering once |
| ReviewList.ReviewListState.constructor | src/components/Reviewlist.tsx:18 | the list starts empty |
| ReviewList.ReviewListState.Loaded | src/components/Reviewlist.tsx:32 | the fetched tickets replace the list |
| ReviewList.ReviewListState.Respond | src/components/Reviewlist.tsx:36-47 | the respond PATCH goes to `/tickets/{id}/respond`; the list changes only after success |
| ReviewTicket.LiftRoundTrip | src/components/Reviewticket.tsx:47-66 | a ticket viewed with string labels reads back as the same ticket |
| ReviewTicket.ApproveRejectOutsideEnum | src/components/Reviewticket.tsx:47-61 | with a handler, Approve and Reject call it; without one they emit status "Approved" or "Rejected", which no status has, so the result is no ticket |
| ReviewTicket.InitialEditData | src/components/Reviewticket.tsx:22-27 | the edit data starts at the ticket's priority and category; its assignee is the ticket's assignee when one is present and empty exactly when none is |
| ReviewTicket.SaveSpec | src/components/Reviewticket.tsx:63-66 | save keeps the ticket and its status and overlays priority, category and assignee; the result is a ticket exactly when both labels are in their unions |
| ReviewTicket.SaveUntouched | src/components/Reviewticket.tsx:29-66 | saving untouched edit data gives the ticket back, with only an absent assignee turned into the empty one |
| ReviewTicket.ReviewTicketPage.constructor | src/components/Reviewticket.tsx:22-27 | not editing; edit data from the ticket |
| ReviewTicket.ReviewTicketPage.TicketChanged | src/components/Reviewticket.tsx:29-36 | a new ticket resets the edit data to its values and leaves edit mode |
| ReviewTicket.ReviewTicketPage.Edit | src/components/Reviewticket.tsx:83 | edit mode starts with the edit data kept |
| ReviewTicket.ReviewTicketPage.SelectPriority | src/components/Reviewticket.tsx:132 | only the priority changes |
| ReviewTicket.ReviewTicketPage.SelectCategory | src/components/Reviewticket.tsx:154 | only the category changes |
| ReviewTicket.ReviewTicketPage.SelectAssignee | src/components/Reviewticket.tsx:174 | only the assignee changes |
| ReviewTicket.ReviewTicketPage.Save | src/components/Reviewticket.tsx:63-66 | emits the saved record and leaves edit mode |
| ReviewTicketModal.ActionsByRole | src/components/ReviewTicketModal.tsx:34-86 | employee: Start Work and Complete Work; manager: Verify Work; admin: Close Ticket; anyone else: none. The ticket never changes the set |
| ReviewTicketModal.RequestsSpec | src/components/ReviewTicketModal.tsx:7-21 | each action posts to `/tickets/{id}/<suffix>`; only Verify Work and Close Ticket send the note; different actions use different paths |
| ReviewTicketModal.WorkDialog.constructor | src/components/ReviewTicketModal.tsx:5 | the note starts empty |
| ReviewTicketModal.WorkDialog.TypeNote | src/components/ReviewTicketModal.tsx:56-74 | the note becomes the typed text |
| ReviewTicketModal.WorkDialog.Click | src/components/ReviewTicketModal.tsx:34-86 | a request is sent exactly for an action shown to the role, and it is that action's request with the current note |
| ReviewDesk.PendingSpec | src/components/test.tsx:24 | `pending` is the order-preserving subsequence of the Pending tickets |
| ReviewDesk.PriorityCountsSpec | src/components/test.tsx:25-26 | the critical and high lists hold exactly the tickets of that priority, and their sizes sum to at most the total |
| ReviewDesk.Oldest | src/components/test.tsx:27-30 | the reduce gives null exactly for the empty list, and otherwise one of the tickets |
| ReviewDesk.OldestSpec | src/components/test.tsx:27-30 | none exactly for the empty list; otherwise a ticket with the least `createdAt`, the earliest such in the list |
| ReviewDesk.InsertByDateCounts | src/components/test.tsx:31-33 | inserting adds exactly that ticket |
| ReviewDesk.InsertByDateSorted | src/components/test.tsx:31-33 | inserting into a newest-first list keeps it newest-first |
| ReviewDesk.SortedByDate | src/components/test.tsx:31-33 | the sorted copy has the same tickets as the list, each as often |
| ReviewDesk.SortedByDateSpec | src/components/test.tsx:31-33 | the sorted copy is newest-first and a permutation of the input |
| ReviewDesk.InsertByDateStable | src/components/test.tsx:31-33 | inserting keeps the input order among tickets of equal time |
| ReviewDesk.SortedByDateStable | src/components/test.tsx:31-33 | the sort is stable: tickets with the same `createdAt` keep their input order |
| ReviewDesk.DeskFor | src/components/test.tsx:35 | the "nothing waiting" view is chosen exactly for the empty list |
| EquipmentManagement.FilteredEquipments | src/components/EquipmentManagement.tsx:45-63 | every item shown meets all four criteria and every item meeting them is shown |
| EquipmentManagement.FilteredEquipmentsSpec | src/components/EquipmentManagement.tsx:45-63 | the filtered list is the order-preserving subsequence of equipment meeting search, status, category and department |
| EquipmentManagement.DefaultsShowAll | src/components/EquipmentManagement.tsx:46-54 | empty search, `all` options and an absent or empty department show everything |
| EquipmentManagement.DepartmentAliases | src/components/EquipmentManagement.tsx:55-59 | the four aliases widen the match as written; any other department matches when the location contains its name |
| EquipmentManagement.WordOfName | src/components/EquipmentManagement.tsx:55-59 | a location containing a name contains every prefix of it, so an alias word never narrows the match |
| EquipmentManagement.Categories | src/components/EquipmentManagement.tsx:65 | no category is listed twice and every equipment's category is listed |
| EquipmentManagement.CategoriesSpec | src/components/EquipmentManagement.tsx:65 | the categories have no duplicates, are exactly the equipment's categories, and appear in first-occurrence order |
| EquipmentManagement.EquipmentPageState.constructor | src/components/EquipmentManagement.tsx:37-43 | empty search, `all` filters, no modal open |
| EquipmentManagement.EquipmentPageState.TypeSearch | src/components/EquipmentManagement.tsx:284 | only the search changes |
| EquipmentManagement.EquipmentPageState.SelectStatus | src/components/EquipmentManagement.tsx:293 | only the status filter changes |
| EquipmentManagement.EquipmentPageState.SelectCategory | src/components/EquipmentManagement.tsx:307 | only the category filter changes |
| EquipmentManagement.EquipmentPageState.OpenAdd | src/components/EquipmentManagement.tsx:216 | the form opens with no item being edited |
| EquipmentManagement.EquipmentPageState.Edit | src/components/EquipmentManagement.tsx:83-86 | the form opens on that item |
| EquipmentManagement.EquipmentPageState.Show | src/components/EquipmentManagement.tsx:87-90 | the detail view opens on that item |
| EquipmentManagement.EquipmentPageState.ShowClose | src/components/EquipmentManagement.tsx:95-98 | the detail view closes and forgets the item |
| EquipmentManagement.EquipmentPageState.ModalClose | src/components/EquipmentManagement.tsx:91-94 | the form closes and forgets the edited item |
| EquipmentManagement.EquipmentPageState.ModalSubmit | src/components/EquipmentManagement.tsx:100-107 | update when an item was being edited, add otherwise; then the form closes with no edited item |
| EquipmentManagement.EditThenAdd | src/components/EquipmentManagement.tsx:83-107 | after an edit is submitted the next submit is an add |
| AddEquipment.Record | src/components/AddEquipmentModal.tsx:122-125 | the record copies every form field and carries the chosen id |
| AddEquipment.RecordKeepsForm | src/components/AddEquipmentModal.tsx:122-125 | loading a submitted record back into the form gives the form that made it |
| AddEquipment.FormFor | src/components/AddEquipmentModal.tsx:35-65 | no equipment gives the defaults; an equipment gives a form that rebuilds it |
| AddEquipment.SubmittedId | src/components/AddEquipmentModal.tsx:122-124 | an edited item keeps its id; a new one gets the fresh id |
| AddEquipment.UntouchedEditRoundTrip | src/components/AddEquipmentModal.tsx:35-128 | loading an item and submitting unchanged gives the same item back |
| AddEquipment.AddedGrows | src/components/AddEquipmentModal.tsx:104-111 | one validation step adds the field's error exactly when its check fails |
| AddEquipment.InOrderGivesFormErrors | src/components/AddEquipmentModal.tsx:101-115 | the checks run in source order build exactly the error dictionary |
| AddEquipment.ErrorsSpec | src/components/AddEquipmentModal.tsx:101-115 | no error exactly when no check fails |
| AddEquipment.FormErrorMessages | src/components/AddEquipmentModal.tsx:101-115 | every error carries its field's message; warranty, maintenance dates and status never err |
| AddEquipment.FormValidity | src/components/AddEquipmentModal.tsx:101-115 | valid exactly when name, serial number, manufacturer and model are not blank, category, date and location are set, and cost is positive |
| AddEquipment.CheckedMessages | src/components/AddEquipmentModal.tsx:104-111 | every checked field has a non-empty message |
| AddEquipment.CollectErrors | src/components/AddEquipmentModal.tsx:101-115 | the imperative validator returns the error dictionary |
| AddEquipment.EditOnlyThatField | src/components/AddEquipmentModal.tsx:130-135 | a change stores the typed value (the chosen status, the cost as the parsed number or 0) in its own field and changes no other; a falsy cost becomes 0 and then fails validation |
| AddEquipment.AddEquipmentModal.constructor | src/components/AddEquipmentModal.tsx:18-33 | defaults and no errors |
| AddEquipment.AddEquipmentModal.Load | src/components/AddEquipmentModal.tsx:35-68 | the form loads the item or the defaults, and the errors clear |
| AddEquipment.AddEquipmentModal.ValidateForm | src/components/AddEquipmentModal.tsx:101-115 | the errors become the error dictionary; valid exactly when empty |
| AddEquipment.AddEquipmentModal.Submit | src/components/AddEquipmentModal.tsx:117-128 | an invalid form emits nothing; a valid one emits the record with the kept or fresh id |
| AddEquipment.AddEquipmentModal.Change | src/components/AddEquipmentModal.tsx:130-135 | the field is set and only its shown error is blanked |
| EquipmentPage.Replaced | src/components/EquipmentPage.tsx:51-53 | the length is kept |
| EquipmentPage.ReplacedSpec | src/components/EquipmentPage.tsx:51-53 | exactly the elements with the id become the server record; others, and the length, stay; no match changes nothing |
| EquipmentPage.WithoutSpec | src/components/EquipmentPage.tsx:59 | delete keeps, in order and with multiplicity, exactly the elements with another id |
| EquipmentPage.DeleteAfterUpdate | src/components/EquipmentPage.tsx:51-59 | deleting an id after updating it is deleting it |
| EquipmentPage.DeleteAfterAdd | src/components/EquipmentPage.tsx:41-59 | deleting the id just added removes the added record |
| EquipmentPage.EquipmentPageState.constructor | src/components/EquipmentPage.tsx:10-12 | no equipment, no department filter, not loading |
| EquipmentPage.EquipmentPageState.BeginFetch | src/components/EquipmentPage.tsx:15-20 | without a unit nothing is fetched; with one the unit's list is fetched while loading |
| EquipmentPage.EquipmentPageState.EndFetch | src/components/EquipmentPage.tsx:24-28 | success stores the list (or empty); loading ends either way |
| EquipmentPage.EquipmentPageState.Add | src/components/EquipmentPage.tsx:36-43 | on success the server record is put in front of the old list |
| EquipmentPage.EquipmentPageState.Update | src/components/EquipmentPage.tsx:45-55 | on success the elements with the edited id are replaced by the server record |
| EquipmentPage.EquipmentPageState.Delete | src/components/EquipmentPage.tsx:57-60 | on success the elements with the id are removed |
| EquipmentPage.EquipmentPageState.ClearDepartmentFilter | src/components/EquipmentPage.tsx:67-69 | the department filter becomes absent |
| EquipmentPage.AddPrepends | src/components/EquipmentPage.tsx:41 | a successful add grows the list by one, the new record first and the old list after it |
| AddPurchase.DefaultForm | src/components/AddPurchaseModal.tsx:18-32 | quantity 1, unit price 0, total 0, bank transfer, pending |
| AddPurchase.AddedGrows | src/components/AddPurchaseModal.tsx:45-51 | one validation step adds the field's error exactly when its check fails |
| AddPurchase.InOrderGivesFormErrors | src/components/AddPurchaseModal.tsx:42-55 | the checks in source order build exactly the error dictionary |
| AddPurchase.ErrorsSpec | src/components/AddPurchaseModal.tsx:42-55 | no error exactly when no check fails |
| AddPurchase.FormValidity | src/components/AddPurchaseModal.tsx:42-55 | valid exactly when equipment name, vendor name, vendor contact and bill number are not blank, the date is set, and quantity and unit price are positive |
| AddPurchase.FormErrorMessages | src/components/AddPurchaseModal.tsx:42-55 | every error carries its field's message; equipment id, total, notes and the payment fields never err |
| AddPurchase.CheckedMessages | src/components/AddPurchaseModal.tsx:45-51 | every checked field has a non-empty message |
| AddPurchase.CollectErrors | src/components/AddPurchaseModal.tsx:42-55 | the imperative validator returns the error dictionary |
| AddPurchase.Record | src/components/AddPurchaseModal.tsx:62-66 | the submitted purchase has the fresh id and its total recomputed as quantity times unit price |
| AddPurchase.RecordSpec | src/components/AddPurchaseModal.tsx:62-66 | every form field is copied, and the stored total equals the form's exactly when the form kept the invariant |
| AddPurchase.AppliedKeepsTotal | src/components/AddPurchaseModal.tsx:71-87 | a quantity or price change makes the total their product; other changes leave the amounts; the invariant survives every change |
| AddPurchase.FalsyAmountIsZero | src/components/AddPurchaseModal.tsx:75-80 | a falsy quantity or price becomes 0, the total becomes 0, and validation fails |
| AddPurchase.BillSuffixSpec | src/components/AddPurchaseModal.tsx:89-95 | the random draw is rendered as exactly three digits that read back as the draw |
| AddPurchase.BillNumberSpec | src/components/AddPurchaseModal.tsx:89-95 | a bill number starts "NH-", has a dash before three final digits, and those digits are the draw |
| AddPurchase.AddPurchaseModal.constructor | src/components/AddPurchaseModal.tsx:18-33 | the defaults, no errors, total invariant holding |
| AddPurchase.AddPurchaseModal.ValidateForm | src/components/AddPurchaseModal.tsx:42-55 | the errors become the error dictionary; valid exactly when empty |
| AddPurchase.AddPurchaseModal.Submit | src/components/AddPurchaseModal.tsx:57-69 | an invalid form emits nothing; a valid one emits the record |
| AddPurchase.AddPurchaseModal.Change | src/components/AddPurchaseModal.tsx:71-87 | the change is applied, only its shown error is blanked, and the total invariant is kept |
| AddPurchase.AddPurchaseModal.GenerateBillNumber | src/components/AddPurchaseModal.tsx:89-95 | the bill number is set from year and draw; the invariant is kept |
| PurchaseManagement.FilteredPurchasesSpec | src/components/PurchaseManagement.tsx:23-31 | the filtered list is the order-preserving subsequence of purchases meeting search, payment status and method |
| PurchaseManagement.DefaultsShowAll | src/components/PurchaseManagement.tsx:23-31 | empty search and `all` options show every purchase |
| PurchaseManagement.SelectionsSpec | src/components/PurchaseManagement.tsx:27-30 | selecting a status or method label keeps exactly the purchases with that value |
| PurchaseManagement.TotalValue | src/components/PurchaseManagement.tsx:33 | the sum of amounts none of which is negative is not negative |
| PurchaseManagement.TotalValueSplits | src/components/PurchaseManagement.tsx:33 | the total value is the sum over any split of the purchases, so no filter changes it |
| PurchaseManagement.StatusCountsAddUp | src/components/PurchaseManagement.tsx:34-35 | paid, pending and partial counts sum to the total; paid plus pending is at most the total |
| PurchaseManagement.PurchasePageState.constructor | src/components/PurchaseManagement.tsx:16-21 | empty search, `all` filters, nothing open |
| PurchaseManagement.PurchasePageState.TypeSearch | src/components/PurchaseManagement.tsx:142 | only the search changes |
| PurchaseManagement.PurchasePageState.SelectStatus | src/components/PurchaseManagement.tsx:151 | only the status filter changes |
| PurchaseManagement.PurchasePageState.SelectPaymentMethod | src/components/PurchaseManagement.tsx:165 | only the method filter changes |
| PurchaseManagement.PurchasePageState.OpenAdd | src/components/PurchaseManagement.tsx:78 | only the add form opens |
| PurchaseManagement.PurchasePageState.ViewBill | src/components/PurchaseManagement.tsx:50-53 | the bill view opens on that purchase |
| PurchaseManagement.PurchasePageState.ModalClose | src/components/PurchaseManagement.tsx:55-57 | only the add form closes |
| PurchaseManagement.PurchasePageState.ModalSubmit | src/components/PurchaseManagement.tsx:59-62 | the purchase goes to the parent and the add form closes |
| PurchaseManagement.PurchasePageState.BillClose | src/components/PurchaseManagement.tsx:64-67 | the bill view closes and forgets the purchase |
| ManagementTemplate.FindItem | src/components/ManagementTemplate.tsx:40 | a found item has the id and is the first with it; none found means no item has it |
| ManagementTemplate.Renamed | src/components/ManagementTemplate.tsx:28 | the length is kept |
| ManagementTemplate.Toggled | src/components/ManagementTemplate.tsx:52 | the length is kept |
| ManagementTemplate.RenamedSpec | src/components/ManagementTemplate.tsx:27-29 | only the names of the items with the id change; ids and flags stay |
| ManagementTemplate.ToggledSpec | src/components/ManagementTemplate.tsx:51-53 | only the flags of the items with the id flip, and toggling twice restores the list |
| ManagementTemplate.WithoutItemSpec | src/components/ManagementTemplate.tsx:47-49 | delete keeps, in order, exactly the items with another id; an absent id changes nothing |
| ManagementTemplate.FilteredItemsSpec | src/components/ManagementTemplate.tsx:60 | the shown list is the order-preserving subsequence of items whose name contains the search ignoring case; an empty search shows all |
| ManagementTemplate.ItemEditor.constructor | src/components/ManagementTemplate.tsx:20-23 | empty list, input and search; not editing |
| ManagementTemplate.ItemEditor.SetInput | src/components/ManagementTemplate.tsx:70 | only the input changes |
| ManagementTemplate.ItemEditor.SetSearch | src/components/ManagementTemplate.tsx:60 | only the search changes |
| ManagementTemplate.ItemEditor.Add | src/components/ManagementTemplate.tsx:25-37 | a blank input changes nothing; edit mode renames with the untrimmed input and ends edit mode; otherwise an active item is appended; the input is emptied |
| ManagementTemplate.ItemEditor.Edit | src/components/ManagementTemplate.tsx:39-45 | only a listed id enters edit mode, with its name as the input |
| ManagementTemplate.ItemEditor.Delete | src/components/ManagementTemplate.tsx:47-49 | the items lose that id; nothing else changes |
| ManagementTemplate.ItemEditor.Toggle | src/components/ManagementTemplate.tsx:51-53 | the item's flag flips; nothing else changes |
| ManagementTemplate.ItemEditor.Reset | src/components/ManagementTemplate.tsx:55-58 | the input empties and edit mode ends; items stay |
| ManagementTemplate.AddAppends | src/components/ManagementTemplate.tsx:30-36 | a new item goes, active, after all unchanged existing items |
| ManagementTemplate.EditThenAdd | src/components/ManagementTemplate.tsx:27-45 | editing then adding renames that item only; length and ids stay |
| RoomManagement.FindRoom | src/components/AddRoomManagement.tsx:43 | the room found is the first room with the id; none found means no room has it |
| RoomManagement.FindBed | src/components/AddRoomManagement.tsx:90-91 | the bed found is the first bed of the room with the id; none found means no bed has it |
| RoomManagement.RoomRenamed | src/components/AddRoomManagement.tsx:31-52 | the length is kept |
| RoomManagement.EditingMarked | src/components/AddRoomManagement.tsx:47 | the length is kept |
| RoomManagement.EditingCleared | src/components/AddRoomManagement.tsx:60 | the length is kept |
| RoomManagement.RoomToggled | src/components/AddRoomManagement.tsx:68 | the length is kept |
| RoomManagement.RoomRenamedSpec | src/components/AddRoomManagement.tsx:28-55 | the rooms with the id take the name and leave editing; beds, flag and every other room stay |
| RoomManagement.EditingMarkedSpec | src/components/AddRoomManagement.tsx:42-48 | exactly the target room is marked editing; nothing else changes |
| RoomManagement.EditingClearedSpec | src/components/AddRoomManagement.tsx:57-61 | every room's editing mark is cleared; nothing else changes |
| RoomManagement.RoomToggledSpec | src/components/AddRoomManagement.tsx:67-69 | only that room's flag flips; toggling twice restores the list |
| RoomManagement.WithoutRoomSpec | src/components/AddRoomManagement.tsx:63-65 | delete keeps, in order, exactly the rooms with another id, so the room goes with its beds |
| RoomManagement.FilteredRoomsSpec | src/components/AddRoomManagement.tsx:152 | the shown rooms are the order-preserving subsequence whose names contain the search ignoring case; empty search shows all |
| RoomManagement.WithBedChange | src/components/AddRoomManagement.tsx:76-150 | the length is kept |
| RoomManagement.BedChangeStaysInRoom | src/components/AddRoomManagement.tsx:76-150 | a bed change touches only that room, and only its beds |
| RoomManagement.ChangedBedsSpec | src/components/AddRoomManagement.tsx:76-150 | append adds the bed at the end; rename sets that bed's name and leaves editing; mark flags only that bed; end-edit unflags it; drop keeps, in order, the other beds |
| RoomManagement.DropAfterAppend | src/components/AddRoomManagement.tsx:76-150 | deleting a freshly added bed restores the bed list |
| RoomManagement.WithBedTextSpec | src/components/AddRoomManagement.tsx:92-123 | the per-room, per-bed edit text is set at one key and kept at every other room and bed |
| RoomManagement.RoomEditor.constructor | src/components/AddRoomManagement.tsx:20-25 | everything empty |
| RoomManagement.RoomEditor.SetRoomInput | src/components/AddRoomManagement.tsx:20 | only the room input changes |
| RoomManagement.RoomEditor.SetSearch | src/components/AddRoomManagement.tsx:152 | only the search changes |
| RoomManagement.RoomEditor.AddRoom | src/components/AddRoomManagement.tsx:28-40 | blank input ignored; edit mode renames; else a room with no beds, active, is appended; input emptied |
| RoomManagement.RoomEditor.EditRoom | src/components/AddRoomManagement.tsx:42-49 | a listed room is marked editing and its name loaded; otherwise nothing changes |
| RoomManagement.RoomEditor.SaveRoomEdit | src/components/AddRoomManagement.tsx:51-55 | the room is renamed with the input without an emptiness check; edit mode ends |
| RoomManagement.RoomEditor.CancelRoomEdit | src/components/AddRoomManagement.tsx:57-61 | every editing mark, the edit id and the input are cleared |
| RoomManagement.RoomEditor.DeleteRoom | src/components/AddRoomManagement.tsx:63-65 | the room leaves the list; nothing else changes |
| RoomManagement.RoomEditor.ToggleRoom | src/components/AddRoomManagement.tsx:67-69 | the room's flag flips; nothing else changes |
| RoomManagement.RoomEditor.BedInputChange | src/components/AddRoomManagement.tsx:72-74 | only that room's bed input changes |
| RoomManagement.RoomEditor.AddBed | src/components/AddRoomManagement.tsx:76-85 | a missing or blank input changes nothing; otherwise the trimmed name is appended to that room and its input cleared |
| RoomManagement.RoomEditor.EditBed | src/components/AddRoomManagement.tsx:87-104 | an existing bed is marked editing and its name loaded into its edit text; otherwise nothing changes |
| RoomManagement.RoomEditor.SaveBedEdit | src/components/AddRoomManagement.tsx:106-124 | without a non-blank edit text nothing changes; otherwise that bed takes the trimmed name and leaves editing, and its text clears |
| RoomManagement.RoomEditor.CancelBedEdit | src/components/AddRoomManagement.tsx:126-142 | the bed leaves editing and its edit text clears |
| RoomManagement.RoomEditor.DeleteBed | src/components/AddRoomManagement.tsx:144-150 | the bed leaves its own room only |
| RoomManagement.AddBedOnlyThere | src/components/AddRoomManagement.tsx:72-85 | typing a name and adding a bed appends it to that room's beds only, and clears that room's input |
| Register.FirstError | src/components/Register.tsx:286-300 | no error exactly when name, email, password and department are filled and the user is an admin or has a unit |
| Register.FirstFailureWins | src/components/Register.tsx:286-300 | missing credentials are reported whatever else; then a missing department; the unit error exactly when all else passes |
| Register.OnlyAdminsOmitUnit | src/components/Register.tsx:270-300 | with the rest filled and no unit, only the admin role passes |
| Register.AdminCodeNeverChecked | src/components/Register.tsx:286-300 | the admin code never changes the validation outcome |
| Register.PayloadSpec | src/components/Register.tsx:305-317 | the unit is null exactly for admins and otherwise the unit's number; the admin code goes out exactly for admin or manager; the rest is copied |
| Register.AllDigitsIsNumber | src/components/Register.tsx:312 | a digit string reads as its number |
| Register.WithFieldSpec | src/components/Register.tsx:274-279 | a change sets that field and keeps every other one |
| Register.RegisterPage.constructor | src/components/Register.tsx:224-233 | the default form (role employee), not loading, no messages |
| Register.RegisterPage.Change | src/components/Register.tsx:274-279 | only the form changes |
| Register.RegisterPage.BeginSubmit | src/components/Register.tsx:281-317 | messages clear; the first failing check is shown with nothing sent; a passing form posts its payload while loading |
| Register.RegisterPage.EndSubmit | src/components/Register.tsx:319-328 | success shows the redirect notice and targets "/"; failure shows the server message or "Registration failed"; loading ends |
| Register.DefaultFormRefused | src/components/Register.tsx:286-288 | the untouched form fails on missing credentials, and an employee sends no admin code |
| Login.FormErrorsSpec | src/components/LoginPage.tsx:21-33 | email errs exactly when blank; password has at most one error, "required" exactly when blank; no general error; valid exactly when neither errs |
| Login.LongBlankPasswordIsMissing | src/components/LoginPage.tsx:25-29 | six spaces are "required", not short; "  ab" is short |
| Login.LoginPage.constructor | src/components/LoginPage.tsx:12-19 | empty credentials, no errors, not loading |
| Login.LoginPage.ValidateForm | src/components/LoginPage.tsx:21-33 | the errors become the validation dictionary; valid exactly when it is empty |
| Login.LoginPage.BeginSubmit | src/components/LoginPage.tsx:35-47 | an invalid form sends nothing; a valid one posts the credentials to `/auth/login` while loading |
| Login.LoginPage.EndSubmit | src/components/LoginPage.tsx:47-61 | success passes the user on; failure shows only the general error (server message or "Login failed"); loading ends |
| Login.LoginPage.Change | src/components/LoginPage.tsx:64-68 | the field is set; its error and the general error are blanked where shown |
| Login.ChangeClearsErrors | src/components/LoginPage.tsx:64-68 | after an edit neither that field's nor the general error shows; the other message and every key stay |
| App.ProtectedRoute | src/App.tsx:31-40 | redirect to "/" exactly when not authenticated, children exactly when authenticated |
| App.UnitPathRoundTrip | src/App.tsx:47-49 | a unit path splits back into its unit id and key |
| App.AppState.constructor | src/App.tsx:63-64 | not authenticated, no user |
| App.AppState.LoginUser | src/App.tsx:76-91 | always authenticated with the user; admin goes to /select-unit; a non-admin without unit gets the alert and no navigation; else the unit dashboard |
| App.AppState.Logout | src/App.tsx:94-98 | authentication and user cleared; navigates to "/" |
| App.LogoutLocksRoutes | src/App.tsx:94-98 | after logout the protected routes redirect to "/" |
| App.LoginLandsInOwnUnit | src/App.tsx:85-90 | a non-admin with a unit lands on the four-part path `/unit/<own unit>/dashboard` |
| AdminRoute.AdminRoute | src/components/AdminRoute.tsx:9-18 | unauthenticated to "/"; authenticated non-admin to /select-unit; children exactly for an authenticated admin |
| AdminRoute.AuthenticationFirst | src/components/AdminRoute.tsx:14-15 | the role never matters without authentication, and every admin-route pass is also a protected-route pass |
| Lifecycle.DeclinesDisagree | src/components/Serviceslip.tsx:82-90 | the slip's decline reports Closed, which has no quick action, where the review list's decline leaves Pending and still offered |
| Lifecycle.AcceptsAgree | src/components/Reviewlist.tsx:40-45 | the review list's accept is the slip's In Progress overwrite, whose one quick action is Mark as Resolved |
| Lifecycle.ClosingDisagrees | src/components/MyTickets.tsx:217-233 | an employee can close a non-Resolved ticket whose detail modal offers no Close |
| Lifecycle.ReviewVerdictsLeaveTheEnum | src/components/Reviewticket.tsx:47-61 | approve and reject without handlers produce records that are no ticket |
| Lifecycle.ResolvedAtDisagrees | src/components/TicketDetailsModal.tsx:110-112 | saving a Resolved ticket back to Pending keeps its resolution time; resolving again overwrites it |
| Forms.ClearedErrorSpec | src/components/AddTicketModal.tsx:99-101 | clearing hides that field's error, keeps every key, and keeps the other messages |
| Strings.ToNumber | src/components/Register.tsx:312 | `Number(s)`: an all-white-space string is 0; a string holding any character that is neither a digit nor white space is NaN; otherwise the digits' value |
| Strings.ToNumberIgnoresTrim | src/components/Register.tsx:312 | converting the trimmed string gives the same number as converting the string |
| Strings.TrimKeepsNonWhitespace | src/components/LoginPage.tsx:24 | `trim` drops only white space: every other character of the string survives |
| Strings.ToNumberOfRendered | src/components/Serviceslip.tsx:344-349 | an id rendered as an option value and read back with `Number` is the id again |
| Strings.Trim | src/components/LoginPage.tsx:24 | the trimmed string is the slice of the string left once the white space before and after it goes: it is empty exactly for an all-white-space string, and otherwise it neither starts nor ends with white space |
| Strings.TrimIdempotent | src/components/AddEquipmentModal.tsx:104-107 | trimming twice is trimming once |
| Strings.BlankIsEmptyTrim | src/components/LoginPage.tsx:24 | `!s.trim()` holds exactly when the string is all white space |
| Strings.ToLower | src/components/EquipmentManagement.tsx:46-48 | `toLowerCase` keeps the length and lowers each character in place |
| Strings.LowerIdempotent | src/components/EquipmentManagement.tsx:46-48 | lowering twice is lowering once, so lowering the search term again changes nothing |
| Strings.ContainsIsOccurrence | src/components/TicketManagement.tsx:61 | `includes` holds exactly when the search term occurs at some offset of the text |
| Strings.Split | src/components/TicketManagement.tsx:470 | `split(' ')` gives at least one part and no part contains a space |
| Strings.SplitJoin | src/components/TicketManagement.tsx:470 | joining the parts with the separator gives the string back |
| Strings.SplitWhole | src/components/TicketManagement.tsx:470 | a string without the separator splits into itself alone |
| Strings.NatToString | src/components/TicketManagement.tsx:88-89 | the rendering of a number is a non-empty digit string without a leading zero |
| Strings.NatToStringRoundTrip | src/components/TicketManagement.tsx:88-89 | reading back a rendered number gives the number |
| Strings.PadStart | src/components/AddPurchaseModal.tsx:92 | `padStart(width, c)` reaches at least the width, keeps the string at its end and fills the front with `c` |
| Strings.LeadingZerosValue | src/components/AddPurchaseModal.tsx:92 | padding digits with zeros keeps them digits of the same value |
| Seqs.FilterSpec | src/components/TicketManagement.tsx:59 | `filter` keeps exactly the elements meeting the condition, in order, each as often as it occurs |
| Seqs.Distinct | src/components/EquipmentManagement.tsx:65 | `Array.from(new Set(s))` holds exactly the values of `s`, each once, in first-occurrence order |

## Left out

- HTTP calls of every form (the axios client, the `useAuth` hook, the fetches
  in effects) are not modelled. A call is an `ok` flag, plus the record the
  server returns where the code reads one.
- `alert`, `window.location.reload`, `navigate` and the timed navigation after
  registering are not performed. Where the choice matters, the model returns
  the message or the target path.
- Clocks, `Date.now()` ids and `Math.random` are left out; they are parameters
  (`now`, `freshId`, `draw`).
- `toLocaleDateString`, `Intl.NumberFormat`, CSS class helpers and JSX layout
  are display only.
- The JavaScript `Date` parsing of ISO strings is not modelled. Ticket times
  are integer milliseconds.
- The bill generator (PDF, print, 18% GST in floating point), the
  show-equipment modal, the sidebar, the select-unit page, the bed-management
  wrapper, the commented-out dashboard and the mock data are not part of this
  model.
- The category list imported from `../constants/category` is not part of this
  model. The review page's category options are any string.
- The commented-out code is not modelled (the old sign-up form in
  `src/components/Register.tsx` at lines 1-218, and the old routes in
  `src/App.tsx`).
- ReviewList.AnswerAll: the comparison at `src/components/Reviewlist.tsx:42`
  reads `toString. ticket.id === id`, which parses as `toString.ticket.id`. With
  `toString` the global function, `toString.ticket` is undefined and reading
  `.id` from it throws a TypeError inside the `setTickets` updater. As written,
  the list therefore never updates after a successful respond. The model uses
  the evident intent, `ticket.id === id`; the throwing path is not modelled.
- Stale closures and batched React updates are not modelled. Each handler
  reads the state as of its own call.
- Strings.Trim and Strings.ToLower: only the ASCII whitespace characters, no-break
  space and byte-order mark, and only `A`-`Z`, are treated. Other Unicode
  whitespace and case mappings are left out.
- Strings.ToNumber: decimals, signs, exponents and hex literals are left out.
  Such input reads as NaN where JavaScript would give a number.
- String lengths count characters, not UTF-16 code units.
- The list `tickets` is a global that `src/components/test.tsx` never defines.
  It is a parameter.
- EquipmentPage.EquipmentPageState.EndFetch: the error logged on failure is
  left out. Only the list and the loading flag are stated.
- A user's `unitId` is an optional string. A numeric unit, and the value 0 in
  particular, is not modelled apart from the empty string.
- RoomManagement: an absent `isEditing` flag is modelled as false.
- Money is an integer (for example paise). Quantities and prices that
  JavaScript would hold as fractions are left out.
