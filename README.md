# Admin dashboard decision logic, in Dafny

This project models the decision logic inside the React components of an admin
dashboard for a ground-transportation booking service. It covers:

- the booking and user search effects of the root panel, which overwrite the
  stored lists, and the non-destructive user filter of the user screen; as the
  components are wired, no input writes any of these queries (see Findings);
- which cancellation actions the booking details modal offers, and the approval
  and rejection dialogs: their guards, the requests they send and how they reset;
- the shared "send an e-mail to the customer" modal;
- the status, cancellation, payment and subtotal displays, and the bookings table;
- the legal content editor: its type badge, the truncated preview and the
  per-document preview toggle;
- the vehicle create and edit forms, and the price statistics;
- the records exchanged with the backend.

Each source file is one module; `Wrappers`, `Text` and `Seqs` hold what they share.

- `Text` models `trim` over the full ECMAScript white-space set, and
  `toLowerCase` / `toUpperCase` on ASCII letters. It also models `includes`,
  proved equal to "occurs at some index".
- `Seqs` holds a generic filter and an insertion sort. The filter is proved
  to keep exactly the matching elements, in order. The sort is proved sorted,
  a permutation and stable, as `Array.prototype.sort` is.

Handlers that change component state are class methods. Each class field is one
`useState` variable.

- A network call is modelled by what it would send: a method returns the request
  as an `Option`.
- An awaited call is split in two. `Begin…` is the part before the `await`;
  `Finish…` is the part after. Where the outcome matters, `Finish…(outcome)`
  takes `Ok`/`Err` for how the call settled. This lets the state while the call
  is in flight, and the `finally` resets, be stated.
- A dialog that calls back into its parent (`onClose`, `onConfirm`) holds a
  reference to the parent object and calls the parent's method. So a dialog's
  contract shows what a click does to its parent.

Behaviours of the code that the model keeps:

- The approval dialog calls `onConfirm` with the amount only. The approval
  request therefore carries no comment (`ApprovalDialog.ConfirmRequest`).
- The rejection handler does not test the comment; only the button's `disabled`
  does. The handler sends whatever comment it holds
  (`RejectionDialog.RejectionDialog.BeginRejectionConfirm`). When the post
  settles, it clears the comment and closes, whatever the outcome.
- A failed approval also closes the approval dialog, in `finally`, and the list
  is not refreshed.
- The root panel's searches overwrite the stored lists. Clearing a booking query
  brings back only the earlier matches until the reload answers
  (`Page.ClearingRestoresOnlyMatches`).

## Model

| member | source | states |
|---|---|---|
| Text.Trim | src/app/page.tsx:43 | `trim` never lengthens the text; the result is empty exactly when the text is all white space, and otherwise starts and ends with a character that is not white space |
| Text.TrimStartDropsWhitespace | src/app/page.tsx:43 | what `trim` cuts at the start is white space |
| Text.TrimEndDropsWhitespace | src/app/page.tsx:43 | what `trim` cuts at the end is white space |
| Text.TrimIsInfix | src/app/page.tsx:43 | the text is some white space, then the trimmed text, then more white space: `trim` only cuts white space at the ends |
| Text.ToLower | src/app/page.tsx:46-50 | `toLowerCase` keeps the length and lower-cases each character independently |
| Text.ToLowerIdempotent | src/app/page.tsx:43-50 | lower-casing an already lower-cased query changes nothing |
| Text.LowerOfUpper | src/app/legal/legal-management.tsx:72 | lower-casing after upper-casing equals lower-casing alone |
| Text.ContainsIffOccursAt | src/app/page.tsx:53-57 | `includes` holds exactly when the query occurs at some index |
| Seqs.FilterMultiset | src/app/page.tsx:45 | `filter` keeps every matching element with its multiplicity and drops the rest |
| Seqs.FilterMembership | src/app/page.tsx:45-59 | an element is in the filtered list iff it was in the list and matches |
| Seqs.FilterIsSubsequence | src/app/user-management.tsx:36 | `filter` keeps the original order (its result is a subsequence) |
| Seqs.FilterKeepsAll | src/app/page.tsx:45-59 | filtering with a predicate every element satisfies returns the list itself |
| Seqs.FilterIdempotent | src/app/page.tsx:82-93 | filtering twice with the same predicate is filtering once |
| Seqs.InsertBy | src/app/page.tsx:62-64 | inserting an element adds exactly that element to the list |
| Seqs.InsertBySorted | src/app/page.tsx:62-64 | inserting into a sorted list keeps it sorted |
| Seqs.SortBy | src/app/page.tsx:62-64 | the comparator sort yields a list non-decreasing by trip time that is a permutation of its input |
| Seqs.SortByMembership | src/app/page.tsx:62-64 | sorting neither adds nor drops any element |
| Seqs.InsertByStable | src/app/page.tsx:62-64 | among the elements of one key, the insertion puts the new element first and keeps the others in order |
| Seqs.SortByStable | src/app/page.tsx:62-64 | the sort is stable: for every key, the elements with that key appear in the same order as before |
| Seqs.SortBySorted | src/app/page.tsx:62-64 | sorting a list that is already sorted returns it unchanged |
| Page.NormalizedEmptyIffBlank | src/app/page.tsx:43-70 | `search.length === 0` on the trimmed, lower-cased query holds exactly when the query is blank |
| Page.SearchBookings | src/app/page.tsx:42-66 | the stored bookings after a search: sorted by trip time, a sub-multiset of the old list, containing exactly the old bookings whose lower-cased name, e-mail or locations, or raw phone, contain the trimmed lower-cased query, each as many times as in the old list |
| Page.NormalizeQuery | src/app/page.tsx:43 | the query trimmed, then lower-cased |
| Page.BookingMatches | src/app/page.tsx:45-59 | a booking matches when its lower-cased full name, e-mail or either location, or its raw phone, contains the normalized query; missing fields read as "" |
| Page.SearchBookingsStable | src/app/page.tsx:62-64 | bookings with the same trip time keep the order they had among the matches |
| Page.BlankBookingQueryKeepsAll | src/app/page.tsx:43-66 | a blank query keeps every booking (only re-sorting) |
| Page.SearchBookingsIdempotent | src/app/page.tsx:42-66 | applying the same booking query twice gives the same list as once |
| Page.ClearingRestoresOnlyMatches | src/app/page.tsx:42-76 | after a search, clearing the query restores only the bookings that matched; the rest need the reload |
| Page.MissingFieldsSearchAsEmpty | src/app/page.tsx:46-50 | a booking without customer or locations is searched as if those fields were "" |
| Page.SearchUsers | src/app/page.tsx:79-93 | the stored users after a search keep their order and are exactly the old users matching the normalized query, each as many times as before; a blank query keeps the list |
| Page.UserMatches | src/app/page.tsx:82-90 | a user matches when the lower-cased full name or e-mail, or the raw phone, contains the normalized query |
| Page.WiredSearchesKeepEverything | src/app/page.tsx:250-266 | as wired, the effects only see the initial "", which keeps every booking (only re-sorted) and every user |
| Page.SearchUsersIdempotent | src/app/page.tsx:79-93 | applying the same user query twice gives the same list as once |
| Page.TokenPresent | src/app/page.tsx:27-28 | `if (token)` on the stored token: present and not empty; the reload at lines 71-72 tests the same |
| Page.AdminPanel.constructor | src/app/page.tsx:15-23 | initial state: no token, users page, empty lists and queries |
| Page.AdminPanel.ShowsLoginForm | src/app/page.tsx:204 | the login form replaces the panel exactly while `token` is empty |
| Page.AdminPanel.BookingSearchEffect | src/app/page.tsx:42-76 | the effect overwrites `bookings` with the search result for the current query and asks for a reload iff that query is blank and a non-empty token is stored; it changes only `bookings` |
| Page.AdminPanel.SetBookingSearch | src/app/page.tsx:42-76 | setting the query already held changes nothing and reloads nothing, since the effect's dependency did not change; a new query overwrites `bookings` with its search result and asks for a reload iff it is blank and a non-empty token is stored |
| Page.AdminPanel.UserSearchEffect | src/app/page.tsx:79-102 | the effect overwrites `users` with the search result for the current query and asks for a reload iff that query is blank and a non-empty token is stored; it changes only `users` |
| Page.AdminPanel.SetUserSearch | src/app/page.tsx:79-102 | setting the query already held changes nothing and reloads nothing; a new query overwrites `users` with its search result and asks for a reload iff it is blank and a non-empty token is stored |
| Page.AdminPanel.BookingsLoaded | src/app/page.tsx:66 | a resolved fetch replaces the stored bookings |
| Page.AdminPanel.UsersLoaded | src/app/page.tsx:93 | a resolved fetch replaces the stored users |
| Page.AdminPanel.PageEffect | src/app/page.tsx:27-37 | with a stored token the panel adopts it and fetches the current page's list; without one nothing happens |
| Page.AdminPanel.Mount | src/app/page.tsx:27-102 | on the initial state all three effects run: with a stored token the current page's list is fetched and both searches ask for a reload too; without one nothing is fetched; the lists stay empty |
| Page.AdminPanel.Navigate | src/app/page.tsx:27-37 | changing page runs the page effect; choosing the current page does nothing |
| Page.AdminPanel.LoginSucceeded | src/app/page.tsx:113-115 | a successful sign-in stores and adopts the token, hides the login form and fetches the users |
| Page.AdminPanel.Logout | src/app/page.tsx:125-129 | logout forgets the stored token, clears `token` (the login form shows) and returns to the users page, keeping the lists |
| UserManagement.UserMatches | src/app/user-management.tsx:36-40 | a user matches when the lower-cased full name or e-mail contains the lower-cased query, or the phone contains the query as typed |
| UserManagement.FilteredUsers | src/app/user-management.tsx:32-43 | a blank query shows `users` exactly; otherwise an order-preserving subsequence that keeps every matching user as often as it occurs in `users` and drops the others, never longer than `users` |
| UserManagement.QueryIsNotTrimmed | src/app/user-management.tsx:33-39 | only the emptiness test trims: "ana" finds "Ana B", " ana" does not |
| UserManagement.SearchIsCaseInsensitive | src/app/user-management.tsx:37-38 | "ANA" finds "Ana" and not "Bob" |
| UserManagement.TypingDoesNotNarrowAsWired | src/app/user-management.tsx:63-69 | as wired, the query stays "", so the list keeps a user who does not match what was typed |
| UserManagement.UserManagement.constructor | src/app/user-management.tsx:27-43 | after the first effect the list shows every user and the invariant holds |
| UserManagement.UserManagement.Update | src/app/user-management.tsx:32-43 | new props or query re-establish `filteredUsers == FilteredUsers(users, userSearch)` |
| UserManagement.UserManagement.Counts | src/app/user-management.tsx:66-67 | the result count never exceeds the total count |
| Types.StatusText | src/types/index.ts:23 | a booking status is exactly one of PENDING, COMPLETED, CANCELLED |
| Types.StatusTextInjective | src/types/index.ts:23 | distinct statuses travel as distinct strings |
| Types.PaymentText | src/types/index.ts:25 | a payment status is PAID or UNPAID |
| Types.ActivityLabel | src/app/user-table.tsx:44 | an account reads "Actif" iff it is active, "Suspendu" iff suspended |
| EmailDialog.SendEnabled | src/app/trips/tripdetails.tsx:376 | send is enabled iff neither trimmed text is empty, which by `trim`'s contract is iff subject and message both have a non-white-space character, and no send is in flight |
| EmailDialog.PrefillSubject | src/app/trips/tripdetails.tsx:42 | the subject "Trip Update - " followed by the departure, " to " and the destination |
| EmailDialog.PrefillMessage | src/app/trips/tripdetails.tsx:43 | the greeting with the customer's names, the fixed body, the trip date in the browser's locale, and the signature |
| EmailDialog.PrefillSubjectNotBlank | src/app/trips/tripdetails.tsx:42 | the pre-filled subject is never blank |
| EmailDialog.EmailModal.constructor | src/app/trips/tripdetails.tsx:31-36 | the modal starts closed, without booking, with an empty form, not sending |
| EmailDialog.EmailModal.OpenFor | src/app/trips/tripdetails.tsx:38-45 | opening binds the booking and pre-fills subject and message from it |
| EmailDialog.EmailModal.Close | src/app/trips/tripdetails.tsx:47-51 | closing resets booking, form and the sending flag |
| EmailDialog.EmailModal.Edit | src/app/trips/tripdetails.tsx:355-364 | typing changes only subject and message |
| EmailDialog.EmailModal.BeginSend | src/app/trips/tripdetails.tsx:85-99 | without a booking nothing happens; otherwise the form is sent to the customer's e-mail with the flag set |
| EmailDialog.EmailModal.FinishSend | src/app/trips/tripdetails.tsx:100-106 | success closes and resets the modal, failure keeps it; the flag is cleared either way |
| TripDetails.DecisionText | src/app/trips/tripdetails.tsx:64 | the action string is APPROVE exactly for an approval |
| TripDetails.CancellationPending | src/app/trips/tripdetails.tsx:270 | `cancellationStatus === "PENDING"`: exact, case-sensitive, and false for `null` |
| TripDetails.SelectedPending | src/app/trips/approval-dialog.tsx:39 | `selectedBooking?.cancellationStatus === "PENDING"`: false while no booking is selected |
| TripDetails.OfferedActions | src/app/trips/tripdetails.tsx:270-311 | approve and reject are offered iff `cancellationStatus` is exactly "PENDING"; send-trip-info is always offered for a selected booking |
| TripDetails.GatingIgnoresTripStatus | src/app/trips/tripdetails.tsx:270 | the booking's own status plays no part in the gating |
| TripDetails.DetailStatusLabel | src/app/trips/tripdetails.tsx:217-219 | the upper-cased status maps to Terminé / En attente / Annulé, any other status is shown raw |
| TripDetails.DetailStatusTone | src/app/trips/tripdetails.tsx:212-216 | the badge is green iff COMPLETED, orange iff PENDING (after upper-casing), and red otherwise: no other colour occurs |
| TripDetails.TypedStatusBadge | src/app/trips/tripdetails.tsx:212-219 | for typed statuses the badge's text and colour go together |
| TripDetails.UpperIdentityOnStatus | src/types/index.ts:23 | the typed status strings are already upper case |
| TripDetails.CancellationLabel | src/app/trips/tripdetails.tsx:233 | "PENDING" reads En attente, null or "" reads Aucun, any other value is shown raw |
| TripDetails.PaymentLabelAsWritten | src/app/trips/tripdetails.tsx:225-227 | as written: "Payé" only for the lower-case text `'paid'`, "En attente" for anything else |
| TripDetails.PaidBookingDisplaysPending | src/app/trips/tripdetails.tsx:225-227 | as written, a PAID booking displays "En attente" |
| TripDetails.PaymentLabel | src/app/trips/tripdetails.tsx:227 | as intended, "Payé" iff the booking is paid |
| TripDetails.Subtotal | src/app/trips/tripdetails.tsx:243 | subtotal plus the two fees is the total; with non-negative fees it is at most the total |
| TripDetails.ApprovalRequestFor | src/app/trips/tripdetails.tsx:60-73 | an approval is sent iff a booking is selected, for that booking, with the given amount and comment |
| TripDetails.TripDetails.constructor | src/app/trips/tripdetails.tsx:29-36 | both dialogs start closed and the e-mail modal starts closed |
| TripDetails.TripDetails.EmailDialogOpen | src/app/trips/tripdetails.tsx:330 | the modal's e-mail dialog is shown when the shared modal is open for the selected booking's id |
| TripDetails.TripDetails.Select | src/app/trips/tripdetails.tsx:25 | the parent's selection is the `selectedBooking` the modal shows |
| TripDetails.TripDetails.Click | src/app/trips/tripdetails.tsx:270-311 | an offered approve or reject button opens its dialog; send-trip-info opens the e-mail modal bound to the selected booking itself (so the next send goes to its customer), pre-filled and with the sending flag untouched, and the modal is then shown |
| TripDetails.TripDetails.HandleApprovalClose | src/app/trips/tripdetails.tsx:52-54 | closes the approval dialog |
| TripDetails.TripDetails.HandleRejectionClose | src/app/trips/tripdetails.tsx:56-58 | closes the rejection dialog |
| TripDetails.TripDetails.BeginApprovalConfirm | src/app/trips/tripdetails.tsx:60-73 | up to the `await`: the approval posted for the selected booking; nothing changes, so the dialog stays open |
| TripDetails.TripDetails.FinishApprovalConfirm | src/app/trips/tripdetails.tsx:78-81 | once the post settles, either way, the approval dialog closes |
| ApprovalDialog.Accepts | src/app/trips/approval-dialog.tsx:28 | the guard of `handleConfirm`: the text is non-empty and `Number(text)` is a number that is not negative (NaN fails) |
| ApprovalDialog.ConfirmDisabled | src/app/trips/approval-dialog.tsx:79 | disabled for empty text; whenever the handler's guard accepts, the button was enabled; enabled but refused exactly for non-empty text that is NaN |
| ApprovalDialog.ConfirmRequest | src/app/trips/approval-dialog.tsx:27-31 | a request is sent iff a booking is selected and the guard accepts; it approves with the parsed, non-negative amount and no comment |
| ApprovalDialog.DialogWording | src/app/trips/approval-dialog.tsx:39-81 | pending: "Approve Cancellation", the cancellation prompt, "Confirm Approval", green; otherwise "Cancel Trip", the canceling-this-trip prompt, "Confirm Cancellation", red |
| ApprovalDialog.WordingDependsOnlyOnPending | src/app/trips/approval-dialog.tsx:39-81 | two bookings alike in `cancellationStatus === "PENDING"` get the same wording |
| ApprovalDialog.OfferedApprovalShowsApprovalWording | src/app/trips/tripdetails.tsx:270-277 | the dialog opened from the offered approve button shows the approval wording |
| ApprovalDialog.ApprovalDialog.constructor | src/app/trips/approval-dialog.tsx:20 | the amount field starts empty |
| ApprovalDialog.ApprovalDialog.EditAmount | src/app/trips/approval-dialog.tsx:57 | typing sets the amount text |
| ApprovalDialog.ApprovalDialog.HandleCancel | src/app/trips/approval-dialog.tsx:22-25 | cancel clears the field and closes through the owner |
| ApprovalDialog.ApprovalDialog.HandleConfirm | src/app/trips/approval-dialog.tsx:27-31 | an accepted confirm posts the request and clears the field, which disables the button until the owner closes the dialog; a refused one changes nothing |
| RejectionDialog.FormValid | src/app/trips/rejection-dialog.tsx:60 | the trimmed comment is not empty, which by `trim`'s contract is iff the comment has a non-white-space character |
| RejectionDialog.RejectionRequestFor | src/app/trips/rejection-dialog.tsx:34-39 | a rejection is sent iff a booking is selected: REJECT, refund 0, the comment as typed |
| RejectionDialog.ClipComment | src/app/trips/rejection-dialog.tsx:90 | the textarea keeps a prefix of at most 500 characters, the whole text when it fits |
| RejectionDialog.DialogTitle | src/app/trips/rejection-dialog.tsx:59-67 | the title reads "Review Cancellation Request" when the cancellation is pending and "Cancel Trip" otherwise |
| RejectionDialog.ReasonLabel | src/app/trips/rejection-dialog.tsx:80 | the label reads "Decision Reason" when the cancellation is pending and "Cancellation Reason" otherwise |
| RejectionDialog.RejectionDialog.constructor | src/app/trips/rejection-dialog.tsx:22-23 | both fields start empty |
| RejectionDialog.RejectionDialog.EditComment | src/app/trips/rejection-dialog.tsx:88-90 | typing keeps the comment within 500 characters |
| RejectionDialog.RejectionDialog.CharacterCount | src/app/trips/rejection-dialog.tsx:93 | the counter shows the comment's length, at most 500 |
| RejectionDialog.RejectionDialog.HandleCancel | src/app/trips/rejection-dialog.tsx:25-29 | cancel clears amount and comment and closes |
| RejectionDialog.RejectionDialog.BeginRejectionConfirm | src/app/trips/rejection-dialog.tsx:31-47 | up to the `await`: the rejection posted for the selected booking; nothing changes, so a second click posts it again |
| RejectionDialog.RejectionDialog.FinishRejectionConfirm | src/app/trips/rejection-dialog.tsx:50-53 | once the post settles, either way, the comment is cleared and the dialog closes; the amount is kept |
| TripTable.TableStatusLabel | src/app/trip-table.tsx:126-128 | the case-sensitive status maps to Terminé / En attente / Annulé, any other status is shown raw |
| TripTable.TableStatusTone | src/app/trip-table.tsx:121-125 | green iff COMPLETED, yellow iff PENDING, red otherwise |
| TripTable.LabelsAgreeOnTypedStatus | src/app/trip-table.tsx:126-128 | on typed statuses the table and the details modal show the same text |
| TripTable.LabelsDisagreeOnLowerCase | src/app/trip-table.tsx:126-128 | on "completed" the table shows the raw text while the modal shows Terminé |
| TripTable.PendingTonesDiffer | src/app/trip-table.tsx:123 | a pending trip is yellow in the table and orange in the modal |
| TripTable.Row | src/app/trip-table.tsx:98-136 | one row: the booking id, the table's status label and colour, and the cancellation badge iff `cancellationStatus === 'PENDING'` |
| TripTable.View | src/app/trip-table.tsx:74-136 | an empty list renders the empty state; otherwise row i is `Row` of booking i: its id, status label and colour, and the cancellation badge iff `cancellationStatus === 'PENDING'` |
| TripTable.RowDialogOpen | src/app/trip-table.tsx:140 | a row's e-mail dialog is shown when the shared modal is open for that row's booking id |
| TripTable.AtMostOneRowDialog | src/app/trip-table.tsx:140 | with distinct booking ids, the shared modal is shown in at most one row |
| TripTable.TripTable.constructor | src/app/trip-table.tsx:28-33 | the shared modal starts closed |
| TripTable.TripTable.OpenEmailFor | src/app/trip-table.tsx:35-42 | the clicked row's dialog opens pre-filled and bound to that row's booking itself, so the next send goes to its customer; with distinct ids no other row's dialog is open |
| TripTable.TripTable.ViewDetails | src/app/trip-table.tsx:197 | "Voir les détails" hands the row's booking to the parent |
| LegalManagement.KindOf | src/app/legal/legal-management.tsx:72-87 | the type is classified by its lower-cased text; an absent type is the default |
| LegalManagement.ContentTypeLabel | src/app/legal/legal-management.tsx:71-84 | ignoring case: privacy, terms, about and faq read "Politique de confidentialité", "Conditions d'utilisation", "À propos" and "FAQ"; "Document légal" iff the type is none of them |
| LegalManagement.ContentTypeColour | src/app/legal/legal-management.tsx:86-99 | blue, green, purple and orange for privacy, terms, about and faq, each iff; gray iff the type is none of the four keys |
| LegalManagement.LabelAndColourAgree | src/app/legal/legal-management.tsx:71-99 | two types share a label iff they share a colour |
| LegalManagement.BadgeIgnoresCase | src/app/legal/legal-management.tsx:71-99 | an upper-cased type gets the same label and colour |
| LegalManagement.TruncateContent | src/app/legal/legal-management.tsx:101-104 | short enough content is unchanged; longer content is its first `maxLength` characters plus "...", length `maxLength + 3` |
| LegalManagement.Preview | src/app/legal/legal-management.tsx:101-104 | the view-mode preview is the content truncated at the default length 150 |
| LegalManagement.PreviewSeesOnlyThePrefix | src/app/legal/legal-management.tsx:101-104 | with the default length 150, two long documents with the same first 150 characters have the same preview |
| LegalManagement.PreviewShown | src/app/legal/legal-management.tsx:265 | `previewMode[postId]`: a document's full text shows when its entry is true; an absent entry reads as not shown |
| LegalManagement.Toggle | src/app/legal/legal-management.tsx:64-69 | the toggle flips the given document's flag and leaves every other entry unchanged |
| LegalManagement.ToggleTwice | src/app/legal/legal-management.tsx:64-69 | toggling a document twice restores every document's visibility |
| LegalManagement.TogglesCommute | src/app/legal/legal-management.tsx:64-69 | toggles of two documents commute |
| LegalManagement.LegalManagement.constructor | src/app/legal/legal-management.tsx:28-34 | nothing is edited, updated or previewed at first |
| LegalManagement.LegalManagement.HandleEditClick | src/app/legal/legal-management.tsx:36-41 | edit mode for that document, starting from its text |
| LegalManagement.LegalManagement.EditText | src/app/legal/legal-management.tsx:237 | typing sets the editor's text |
| LegalManagement.LegalManagement.BeginUpdate | src/app/legal/legal-management.tsx:43-50 | blank text does nothing; otherwise the update is issued with the flag set |
| LegalManagement.LegalManagement.FinishUpdate | src/app/legal/legal-management.tsx:50-56 | success leaves edit mode, failure stays; the flag is cleared either way |
| LegalManagement.LegalManagement.CancelEdit | src/app/legal/legal-management.tsx:59-62 | cancel leaves edit mode and empties the editor |
| LegalManagement.LegalManagement.TogglePreview | src/app/legal/legal-management.tsx:64-69 | the preview map becomes its toggle |
| VehicleManagement.FormComplete | src/app/vehicle/vehicle-management.tsx:51 | the submit guard (also at line 79): neither field is the empty string; the fields are not trimmed |
| VehicleManagement.EditFormFor | src/app/vehicle/vehicle-management.tsx:70-76 | the row editor is loaded with the vehicle's type and its price written by `toString` |
| VehicleManagement.RequestFor | src/app/vehicle/vehicle-management.tsx:51-88 | a request is sent iff neither field is empty, with the type and the parsed price |
| VehicleManagement.UnchangedEditResendsVehicle | src/app/vehicle/vehicle-management.tsx:70-88 | saving an unchanged edit form sends the vehicle back as it was, when parsing reads back what `toString` wrote |
| VehicleManagement.Prices | src/app/vehicle/vehicle-management.tsx:248 | `vehicles.map(v => v.price)`: one price per vehicle, in order |
| VehicleManagement.MaxOf | src/app/vehicle/vehicle-management.tsx:248 | `Math.max` is at least every price and is one of them |
| VehicleManagement.MaxPrice | src/app/vehicle/vehicle-management.tsx:247-250 | 0 for no vehicles; otherwise at least every price and equal to one of them |
| VehicleManagement.Sum | src/app/vehicle/vehicle-management.tsx:232 | the `reduce` total of the prices, starting from 0 |
| VehicleManagement.SumAtMost | src/app/vehicle/vehicle-management.tsx:232 | a sum of n prices none above m is at most n·m |
| VehicleManagement.SumAtLeast | src/app/vehicle/vehicle-management.tsx:232 | a sum of n prices none below m is at least n·m |
| VehicleManagement.AveragePrice | src/app/vehicle/vehicle-management.tsx:231-234 | 0 for no vehicles; otherwise the mean rounded half up as `Math.round` does |
| VehicleManagement.RoundedMeanAtMost | src/app/vehicle/vehicle-management.tsx:232 | the half-up rounding of s/n is at most m when s is at most n·m |
| VehicleManagement.RoundedMeanAtLeast | src/app/vehicle/vehicle-management.tsx:232 | the half-up rounding of s/n is at least m when s is at least n·m |
| VehicleManagement.AverageAtMostMax | src/app/vehicle/vehicle-management.tsx:231-250 | the average never exceeds the maximum price |
| VehicleManagement.UniformPriceStatistics | src/app/vehicle/vehicle-management.tsx:231-250 | when every vehicle has the same price, that is both the average and the maximum |
| VehicleManagement.VehicleManagement.constructor | src/app/vehicle/vehicle-management.tsx:33-47 | both forms empty, nothing edited, nothing in flight |
| VehicleManagement.VehicleManagement.OpenCreateForm | src/app/vehicle/vehicle-management.tsx:130 | "Nouveau véhicule" shows the create form |
| VehicleManagement.VehicleManagement.EditNewVehicle | src/app/vehicle/vehicle-management.tsx:152-167 | typing sets the create form |
| VehicleManagement.VehicleManagement.EditEditForm | src/app/vehicle/vehicle-management.tsx:302-321 | typing sets the row editor |
| VehicleManagement.VehicleManagement.BeginCreate | src/app/vehicle/vehicle-management.tsx:49-60 | an incomplete form does nothing; otherwise the creation is issued with the flag set |
| VehicleManagement.VehicleManagement.FinishCreate | src/app/vehicle/vehicle-management.tsx:61-67 | success empties and hides the form, failure keeps both; the flag is cleared either way |
| VehicleManagement.VehicleManagement.HandleEditClick | src/app/vehicle/vehicle-management.tsx:70-76 | edit mode for that vehicle, the form loaded with its type and price |
| VehicleManagement.VehicleManagement.BeginUpdate | src/app/vehicle/vehicle-management.tsx:78-88 | an incomplete form does nothing; otherwise the update is issued with the flag set |
| VehicleManagement.VehicleManagement.FinishUpdate | src/app/vehicle/vehicle-management.tsx:89-94 | success leaves edit mode, failure stays; the flag is cleared either way |
| VehicleManagement.VehicleManagement.CancelEdit | src/app/vehicle/vehicle-management.tsx:97-100 | cancel leaves edit mode and empties the editor |
| VehicleManagement.VehicleManagement.CancelCreate | src/app/vehicle/vehicle-management.tsx:102-105 | cancel hides and empties the create form |

## Left out

- HTTP calls are not modelled: endpoints, bearer headers, responses and toasts. Each call appears only as the request it would send and an `Ok`/`Err` outcome.
- Both the `localStorage` token handling and its bugs are left out:
  - the list fetches use the state `token` instead of their argument;
  - suspend sends the headers as the request body.
- The stored token is a field. Its reads and writes are modelled, not the browser storage.
- React scheduling is not modelled. Several state updates in one handler are applied together, as React batches them.
- Dates and locales are not modelled. Instants are integers (`BookingRow.tripTime` is the parsed trip time). The locale date text in the e-mail message is a parameter. The "modified in the last 7 days" count and the latest-update date of the legal screen are left out, because they depend on the clock and the locale.
- `Number` and `parseFloat` are an abstract parser from text to an optional whole number, where `None` is NaN. Fractional and floating-point amounts are not modelled. Neither is how `Number(" ")` evaluates.
- VehicleManagement.AveragePrice: computed on whole prices with exact arithmetic. Floating-point rounding error in the sum is not modelled.
- Text.ToLower: only ASCII letters change case. Unicode case mapping beyond ASCII, and lengths in UTF-16 code units, are not modelled.
- Text.ToUpper: only ASCII letters change case, so a status such as "pendıng", which `toUpperCase` maps to "PENDING", is not mapped here.
- TripDetails.DetailStatusLabel: built on `Text.ToUpper`, so a status that only a non-ASCII upper-casing turns into a known status is shown raw here, where the screen shows its French label.
- Display-only output is not modelled: CSS classes, icons, the driver-language, welcome-sign and payment-method lines, date formatting, and the counters that only show a length.
- The commented-out "cancel trip" button is dead code.
- Some files are not part of this model:
  - src/app/loginform.tsx, src/app/sidebar.tsx and src/app/searchbar.tsx are presentation only. The search bar matters only through the name of the prop it reads (first row of Findings).
  - src/app/user-table.tsx is display only; only its activity badge is modelled, as `Types.ActivityLabel`.
  - src/app/trips/trips-table.tsx duplicates the trip table's status mapping.
  - src/app/trips/trips-management.tsx and src/app/legal/page.tsx are wiring and fetches. The bookings screen keeps its own `tripSearch`, which its input writes and nothing reads; its table shows the bookings unfiltered.
  - src/app/userdetails.tsx only delegates to callbacks.
- `loading` flags and refresh buttons are left out, because they only reflect a fetch.

## Findings

| source | as written | input that shows it | evidently intended | confidence | as-written member | corrected member |
|---|---|---|---|---|---|---|
| src/app/user-management.tsx:63-69 | the screen passes `onChange={setUserSearch}` to a SearchBar whose props read `onSearch` (src/app/searchbar.tsx:8-21), so the input has no change handler and `userSearch` stays '' | users Ana and Bob; typing "ANA" still lists Bob | typing narrows the list to the matching users | high (prop names compared; not executed) | UserManagement.TypingDoesNotNarrowAsWired | UserManagement.UserManagement.Update |
| src/app/page.tsx:250-266 | the panel passes `searchValue` and `onSearch` to UserManagement and TripManagement, whose props declare neither, so `userSearch` and `bookingSearch` stay '' and the search effects only run at mount | any text typed in either screen's search box leaves the stored lists whole | typing narrows the stored lists | high (prop names compared; not executed) | Page.WiredSearchesKeepEverything | Page.AdminPanel.SetBookingSearch |
| src/app/trips/tripdetails.tsx:225-227 | the payment line compares `paymentStatus` with lower-case `'paid'`; the type allows only `'PAID'` and `'UNPAID'` | any booking with `paymentStatus: 'PAID'` shows "En attente" in a blue badge | "Payé" in green for a paid booking | high (type-level argument; not executed) | TripDetails.PaidBookingDisplaysPending | TripDetails.PaymentLabel |
