# Invitation list controller, modelled in Dafny

This project models the invitation-list screen of ControlAccess (`src/pages/InvitationList.tsx`).
The screen fetches the current user's visitor invitations and shows each one with a status badge
and the action buttons that status allows. From there the user can cancel an invitation, remove
it after confirming, or open a modal with its access QR code.

The model keeps the screen's five state slots (`loading`, `invitations`, `selectedInvitation`,
`showQRModal`, `deleteConfirmInvitation`) as fields of the class `Controller.InvitationList`.
Each handler is a method of that class. The replies of the HTTP calls a handler makes are
parameters of type `Reply<B> = Thrown | Got(body)`: `Thrown` is a rejected request and `body`
stands for `response.data`. The class keeps two logs:

- `toasts` holds every notification shown (message and colour).
- `requests` holds every request sent to the invitation service (list, cancel, delete, detail).

The session user, which the component reads from the login store, is passed to the handlers as
a parameter.

Pure parts are functions:

- `UserId`: the user-id normalisation `user?.replace(/\./g, '') || ''`.
- `StatusPolicy`: the status colour, label and icon switches, and the card's action buttons.
- `QrCode`: the QR detail re-fetch decision and the modal's fallback chain
  `qrCode`, then `String(id ?? idAcceso ?? '')`, then "Código QR no disponible".
- `Responses`: the specifications that decide what a list reply does to the list and what a
  cancel or delete reply notifies. The handlers are proved against them.
- `JsValues`: JavaScript truthiness and `String(n)` for integral numbers.

`Scenarios` runs the screen end to end on concrete replies.

Where the code and the design description of the system differ, the model follows the code:

- An array in the list reply replaces the list even when `success` is false.
- A missing `success` on a cancel or delete reply counts as a failure, like an explicit `false`.
- The fallback code uses `??`, so an empty-string `id` is kept. It hides `idAcceso`, and the
  modal shows "unavailable" (`QrCode.EmptyIdHidesAccessId`). The design description says that
  `idAcceso` is used when `id` is absent or empty.
- Labels and notification texts are the code's Spanish strings.

## Model

| member | source | states |
|---|---|---|
| `Wrappers.Option.GetOr` | src/pages/InvitationList.tsx:370 | defines `??`: the value when present, the default only when it is missing (null or undefined) |
| `JsValues.IsTruthyString` | src/pages/InvitationList.tsx:367 | defines truthiness of an optional string: present and non-empty |
| `JsValues.IsTruthyFlag` | src/pages/InvitationList.tsx:107 | defines truthiness of an optional `success` flag: present and true |
| `Responses.FetchFailed` | src/pages/InvitationList.tsx:78-80 | defines the failing fetch: the call threw, or the payload is not an array and `success` is falsy |
| `Responses.CommandSucceeded` | src/pages/InvitationList.tsx:107 | defines a confirmed cancel or delete (also line 133): the call returned and `success` is truthy |
| `QrCode.NeedsDetailFetch` | src/pages/InvitationList.tsx:149 | defines when the detail re-fetch happens: `qrCode` is falsy and the id is present |
| `QrCode.DetailAccepted` | src/pages/InvitationList.tsx:152 | defines when the detail reply is adopted: the call returned, `success` is truthy and `data` is present |
| `UserId.StripDots` | src/pages/InvitationList.tsx:70 | the result holds no '.' and is no longer than the input |
| `UserId.StripDotsCounts` | src/pages/InvitationList.tsx:70 | the length drops by exactly the number of dots, and every other character keeps its multiplicity |
| `UserId.StripDotsAppend` | src/pages/InvitationList.tsx:70 | removing dots distributes over concatenation, so the kept characters stay in input order |
| `UserId.StripDotsKeepsDotFree` | src/pages/InvitationList.tsx:70 | a string without dots comes back unchanged |
| `UserId.StripDotsFixedPoints` | src/pages/InvitationList.tsx:70 | the input is unchanged if and only if it holds no dot |
| `UserId.StripDotsIdempotent` | src/pages/InvitationList.tsx:70 | stripping twice equals stripping once |
| `UserId.NormalizeUser` | src/pages/InvitationList.tsx:70 | a missing user gives `''`; otherwise the user with its dots removed; never contains a dot (the same key is the `cancelledBy` of line 101) |
| `UserId.NormalizeUserIdempotent` | src/pages/InvitationList.tsx:70 | normalising an already normalised id changes nothing |
| `UserId.NormalizeUserDropsSeparators` | src/pages/InvitationList.tsx:70 | `a.b.c` and `abc` (dot-free parts) give the same key `abc` |
| `UserId.NormalizeUserExample` | src/pages/InvitationList.tsx:70 | "12.345.678" and "12345678" both give "12345678" |
| `JsValues.OrElse` | src/pages/InvitationList.tsx:111 | yields the server message when it is a non-empty string, else the fallback text; empty only if the fallback is |
| `JsValues.NatToDecimal` | src/pages/InvitationList.tsx:370 | decimal digits of a natural number, non-empty, with no leading zero except for 0 itself |
| `JsValues.DecimalRoundTrip` | src/pages/InvitationList.tsx:370 | reading the rendered digits back gives the number |
| `JsValues.IntToString` | src/pages/InvitationList.tsx:370 | `String(n)` of an integer is non-empty: digits, with a leading '-' for negatives |
| `JsValues.IntToStringInjective` | src/pages/InvitationList.tsx:370 | different integers render differently |
| `InvitationData.IdToString` | src/pages/InvitationList.tsx:151 | a string id renders as itself, a numeric id as its non-empty decimal form |
| `InvitationData.DeleteCount` | src/pages/InvitationList.tsx:131 | proof helper for `Controller.ConfirmTwice`: counts the delete requests (those sent at this line) in a log; zero exactly when the log holds none |
| `InvitationData.DeleteCountAppend` | src/pages/InvitationList.tsx:131 | proof helper for `Controller.ConfirmTwice`: delete counts add up over concatenated logs |
| `Responses.FetchOutcome` | src/pages/InvitationList.tsx:77-90 | an array payload becomes the list exactly, even when `success` is falsy; a non-array payload with truthy `success` empties the list; the list is otherwise the old list, never a merge; a thrown call or a non-array payload without truthy `success` keeps the list and emits exactly one "Error al cargar invitaciones" danger toast; otherwise no toast |
| `Responses.FetchReplacesWholesale` | src/pages/InvitationList.tsx:78-84 | a fetch that does not fail yields a list independent of the previous list |
| `Responses.LastFetchWins` | src/pages/InvitationList.tsx:77-90 | of two fetches in turn, the later one decides the list unless it failed, in which case the earlier one's list stays |
| `Responses.CommandToast` | src/pages/InvitationList.tsx:107-115 | exactly one toast; green if and only if `success` is truthy; a rejection shows the server's message if non-empty, else the generic text; a thrown call shows the exception text; never a warning |
| `Responses.CommandToastNeverBlank` | src/pages/InvitationList.tsx:108-141 | with the cancel and delete texts, every notification is non-empty |
| `Responses.CancelRejectedWithMessage` | src/pages/InvitationList.tsx:111 | a cancel rejected with "already used" shows "already used" as a danger toast |
| `StatusPolicy.StatusColor` | src/pages/InvitationList.tsx:159-174 | `''` if and only if the status is unknown; a known status gets `status-` followed by its lower-cased name |
| `StatusPolicy.StatusLabel` | src/pages/InvitationList.tsx:176-191 | an unknown status is shown raw; a known status gets a non-empty label different from its code |
| `StatusPolicy.StatusLabelDistinguishesKnown` | src/pages/InvitationList.tsx:176-191 | different known statuses have different labels |
| `StatusPolicy.StatusIcon` | src/pages/InvitationList.tsx:193-208 | ban icon if and only if CANCELLED; check mark if and only if ACTIVE or USED; clock for everything else, unknown statuses included |
| `StatusPolicy.ActionsFor` | src/pages/InvitationList.tsx:313-347 | QR and cancel offered if and only if ACTIVE or PENDING; disabled "QR No Disponible" if and only if EXPIRED, CANCELLED or USED; never both; remove always; some QR button exactly when the status has a colour class |
| `StatusPolicy.UnknownStatusDegrades` | src/pages/InvitationList.tsx:159-208 | an unknown status gets its raw label, no colour class, the clock icon and only the remove button |
| `QrCode.DetailPath` | src/pages/InvitationList.tsx:151 | the detail path is the string id itself, or a non-empty rendering of a numeric id |
| `QrCode.QrInvitation` | src/pages/InvitationList.tsx:147-155 | without a needed fetch, or when the fetch throws, the list item is used; otherwise the whole detail record is adopted exactly when `success` and `data` are truthy |
| `QrCode.FallbackCode` | src/pages/InvitationList.tsx:370 | a present id (even `''`) decides the code; only a missing id falls back to `idAcceso`, then `''`; the code is empty exactly when the id is `''`, or the id is missing and `idAcceso` is missing or empty |
| `QrCode.QrView` | src/pages/InvitationList.tsx:367-376 | server image if and only if `qrCode` is truthy, shown verbatim; a generated code is never empty and comes from the id or, when the id is missing, from `idAcceso`; "unavailable" exactly when there is no truthy `qrCode` and the id is `''` or missing with a falsy `idAcceso` |
| `QrCode.ServerCodeShownVerbatim` | src/pages/InvitationList.tsx:149 | a truthy `qrCode` triggers no detail fetch and is shown as is |
| `QrCode.NumericIdAlwaysRenders` | src/pages/InvitationList.tsx:370 | a numeric id, 0 included, always yields a generated code |
| `QrCode.NumericCodesDistinct` | src/pages/InvitationList.tsx:370-372 | different numeric ids yield different codes |
| `QrCode.EmptyIdHidesAccessId` | src/pages/InvitationList.tsx:370-374 | an empty-string id makes the code unavailable whatever `idAcceso` holds |
| `QrCode.FallbackToIdAfterFailedDetail` | src/pages/InvitationList.tsx:147-157 | `qrCode` null with id "42": one detail fetch on path "42"; if it is not adopted, the code is "42" |
| `QrCode.FallbackToAccessId` | src/pages/InvitationList.tsx:149 | `qrCode` and id null with `idAcceso` "ABC": no detail fetch, and the code is "ABC" |
| `QrCode.NoIdentifierNoCode` | src/pages/InvitationList.tsx:370-374 | `qrCode` and id null with an empty `idAcceso`: the modal shows "unavailable" |
| `Controller.InvitationList.constructor` | src/pages/InvitationList.tsx:45-49 | the screen starts idle, with an empty list, nothing selected or staged, and empty logs |
| `Controller.InvitationList.FetchInvitations` | src/pages/InvitationList.tsx:67-91 | sends one list request for the normalised user; the list and the toasts become those of `FetchOutcome`; `loading` ends false; the other slots are untouched |
| `Controller.InvitationList.ReportCommand` | src/pages/InvitationList.tsx:107-115 | emits the command's toast; on success refreshes the list once (one list request, the refresh's list and toasts); on failure leaves the list and the request log alone |
| `Controller.InvitationList.HandleCancelInvitation` | src/pages/InvitationList.tsx:98-119 | one cancel request with the normalised user as `cancelledBy`, then one toast; a list refresh only on success; on failure the list is unchanged; `loading` ends false |
| `Controller.InvitationList.HandleRemoveClick` | src/pages/InvitationList.tsx:121-123 | stages the invitation, which opens the confirmation prompt (`RemovePromptOpen`), and changes nothing else; no request is sent |
| `Controller.InvitationList.DismissRemovePrompt` | src/pages/InvitationList.tsx:231-237 | clears the staged invitation, closing the prompt, without any request, toast or list change |
| `Controller.InvitationList.HandleRemoveConfirm` | src/pages/InvitationList.tsx:125-145 | always ends with nothing staged and the prompt closed; with nothing staged, nothing else changes, `loading` included; otherwise one delete for the staged id, then one toast and a refresh only on success; on failure the list is unchanged; `loading` ends false |
| `Controller.InvitationList.HandleShowQR` | src/pages/InvitationList.tsx:147-157 | at most one detail request, sent exactly when `qrCode` is falsy and the id is present; selects `QrInvitation` and opens the modal, so the modal content (`ModalContent`) is `QrView` of that invitation; no toast, no `loading` or list change |
| `Controller.InvitationList.CloseQRModal` | src/pages/InvitationList.tsx:356-360 | closes the modal, so it shows nothing, and keeps the selection |
| `Controller.ConfirmTwice` | src/pages/InvitationList.tsx:125-131 | two confirmations without a click between them add at most one delete request, and none if nothing was staged |
| `Scenarios.ListedActions` | src/pages/InvitationList.tsx:313-347 | the list [id 1 ACTIVE, id 2 USED] offers QR and cancel for 1, only the disabled QR for 2, and remove for both |
| `Scenarios.CancelRejected` | src/pages/InvitationList.tsx:98-112 | a cancel rejected with "already used" shows that message, and the list still holds both items with id 1 ACTIVE |
| `Scenarios.RemoveConfirmed` | src/pages/InvitationList.tsx:121-136 | click then confirm with a successful delete: the first toast is "Invitación eliminada" and the requests are the delete then one list refresh |
| `Scenarios.RemoveDismissed` | src/pages/InvitationList.tsx:231-239 | click, dismiss, then confirm: no request and no notification |

## Left out

- Asynchrony. The refresh after a successful cancel or delete is not awaited (lines 109 and 135). The model runs it to completion, in order, before the handler's `finally` clears `loading`. So the window in which `finally` has cleared `loading` while the refresh is still in flight is not modelled.
- Overlapping pull-to-refresh calls and `IonLoading`'s `onDidDismiss` clearing `loading` (lines 93-96 and 229) are not modelled. `handleRefresh` is `FetchInvitations` followed by completing the refresher animation. Each reply is an input to one sequential call.
- The HTTP client, the login store and the toast primitive are outside the model. They appear only as reply parameters, the `user` parameter and the `toasts` log. Toast duration, position and swipe options, and console logging, are not modelled.
- JSON values are narrowed to the shapes the code inspects. `success` is an optional boolean, and only its truthiness matters. A list `data` is an array of invitations or "not an array". A detail `data` is a record or falsy. A detail `data` that is truthy but not an invitation record is not modelled.
- `IntToString` covers integral numeric ids only. `String` of fractional, huge (1e21 and above) or NaN numbers is not modelled.
- `formatDate` (lines 210-220) is not modelled. It relies on JavaScript `Date` parsing and `es-CL` locale formatting.
- The rendering of the QR image by `QRCodeSVG` and its size and level parameters are not modelled. Neither is the rest of the JSX, including the empty-list placeholder and the guest detail rows.
- Navigation (`handleBack`, "Crear Invitación") and the mount effect that runs the first fetch (lines 222-224) are not modelled.
