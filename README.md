# Ticket booking client — a Dafny model

This project models the client side of a seat-booking application. A signed-in
user asks the booking server for 1 to 4 seats. The client then polls the request's
status every two seconds until the server reports `confirmed` or `failed`. It also
shows a 10 × 4 coach seat map and a most-recent-first history of finished
bookings. The history and the session are kept in the browser's `localStorage`.

Modules, one per source file:

- `KeyValue` (`localStorage`): a class over a map from keys to stored text.
  Stored text is abstracted by what `JSON.parse` makes of it: either a
  document written by `JSON.stringify`, or text that does not parse.
- `Api` (`src/lib/api.ts`): the server's record shapes only.
- `Storage` (`src/lib/storage.ts`): the booking-history ledger. It covers the
  save, the trim to 50, the fail-open read, the clear, the count and the
  success rate.
- `Auth` (`src/lib/auth.ts`): login, signup, logout, the current user, and
  the name taken from the email.
- `BookingStatus` (`src/components/BookingStatus.tsx`): the polling stop
  rule over a sequence of fetch results, the status flags and what the panel
  shows.
- `BookingForm` (`src/components/BookingForm.tsx`): the seat-count state,
  its normalisation, the submit guard and how the server's answer is passed on.
- `IndexPage` (`src/pages/Index.tsx`): the page's state fields and which
  panels are shown.
- `CoachLayout` (`src/components/CoachLayout.tsx`): the seat grid, its ids
  and the status lookup with its `available` default.
- `BookingHistory` (`src/components/BookingHistory.tsx`): the panel's
  `history` state, the clear-after-confirm flow, the colour bands, the id
  prefix and the per-entry display rules.

Nothing in the code writes a ledger entry when a request resolves: no
component calls `saveBooking`, and there is no wait clock and no write-once
flag. So the ledger is modelled as a store that any caller may append to. It is
not tied to the poller.

## Model

| member | source | states |
|---|---|---|
| `KeyValue.Stringify` | src/lib/storage.ts:22 | what is written parses back to the same document |
| `KeyValue.Parse` | src/lib/storage.ts:28-32 | parsing fails exactly on text that is not a stored document |
| `KeyValue.IsBlank` | src/lib/storage.ts:27 | `!data`: a missing entry is blank; a blank entry never parses; a written document is never blank |
| `KeyValue.ReadJson` | src/lib/auth.ts:38-46 | a missing, blank (`""`) or unparsable entry reads as nothing; otherwise the read gives the document stored under the key |
| `KeyValue.LocalStore.GetItem` | src/lib/storage.ts:26 | `null` exactly for a missing key, otherwise the stored text |
| `KeyValue.LocalStore.SetItem` | src/lib/storage.ts:22 | the key now maps to the new text; every other key is unchanged |
| `KeyValue.LocalStore.RemoveItem` | src/lib/storage.ts:36 | the key is gone; every other key is unchanged |
| `Storage.GetHistory` | src/lib/storage.ts:25-33 | fails open: a missing or unparsable entry gives `[]`; otherwise the stored list |
| `Storage.Trim` | src/lib/storage.ts:21 | keeps the first min(n, 50) entries, in order |
| `Storage.SaveBooking` | src/lib/storage.ts:16-23 | the new history is the record followed by the old history, cut to 50; only `HISTORY_KEY` is written |
| `Storage.ClearHistory` | src/lib/storage.ts:35-37 | only `HISTORY_KEY` is removed, and the history then reads as empty |
| `Storage.GetBookingCount` | src/lib/storage.ts:39-41 | the count is the length of what `getHistory` returns; it is 0 exactly when the history is empty |
| `Storage.CountConfirmed` | src/lib/storage.ts:46 | at most the list's length; equal to it exactly when every entry is confirmed; 0 exactly when every entry failed |
| `Storage.CountConfirmedConcat` | src/lib/storage.ts:46 | the count over two lists joined is the sum of their counts, so with the one-element case it is the number of confirmed entries |
| `Storage.SuccessRate` | src/lib/storage.ts:45-47 | 0 for no bookings; otherwise 100·c/t rounded half up, i.e. 2t·r ≤ 200c + t < 2t·(r+1); always in 0..100 |
| `Storage.GetSuccessRate` | src/lib/storage.ts:43-48 | 0 when the history is empty; otherwise 100·c/t rounded half up for the stored history's t entries and c confirmed ones; always in 0..100 |
| `Storage.SaveBookingPutsRecordFirst` | src/lib/storage.ts:16-22 | after a save, the first entry is the saved record, whatever was stored before |
| `Storage.SaveBookingLength` | src/lib/storage.ts:13-22 | after a save, the length is min(old + 1, 50), so never above 50 |
| `Storage.SaveBookingShifts` | src/lib/storage.ts:18-21 | after a save, entries 1.. are the first min(old, 49) old entries, in the same order |
| `Storage.SaveBookingOverCorrupt` | src/lib/storage.ts:17-33 | a save over a missing or unparsable entry gives exactly `[record]` |
| `Storage.SaveAndClearTouchOnlyHistoryKey` | src/lib/storage.ts:12-36 | save and clear leave every key other than `HISTORY_KEY` as it was |
| `Storage.ClearEmptiesHistory` | src/lib/storage.ts:35-48 | after a clear, the history is empty and the count and rate are 0 |
| `Storage.SaveTwiceKeepsBoth` | src/lib/storage.ts:16-22 | no deduplication: saving one record twice puts it in the first two places |
| `Storage.SavedAllKeepsMostRecent` | src/lib/storage.ts:16-22 | after a run of saves, the history is the saved records newest first, then the old history, cut to 50 |
| `Storage.FiftyOneSavesKeepFifty` | src/lib/storage.ts:13-22 | 51 saves from an empty store leave exactly the 50 most recent records, newest first |
| `Storage.BookingCountAfterSave` | src/lib/storage.ts:39-41 | a save moves the count to min(old + 1, 50) |
| `Storage.SuccessRateThreeOfFour` | src/lib/storage.ts:43-48 | three confirmed bookings and one failed one give 75 |
| `Auth.NameFromEmail` | src/lib/auth.ts:15 | a prefix of the email with no `@`, ending at the email's end or at its first `@` |
| `Auth.NameFromEmailSplits` | src/lib/auth.ts:15 | for an email `local@rest` with no `@` in `local`, the name is `local` |
| `Auth.LoginResult` | src/lib/auth.ts:12-20 | a user exactly when the email is non-empty and the password has at least 6 characters; it keeps the email, and its name is the part before the first `@` |
| `Auth.SignupResult` | src/lib/auth.ts:25-30 | a user exactly when email and name are non-empty and the password has at least 6 characters; the user has exactly the given email and name |
| `Auth.GetCurrentUser` | src/lib/auth.ts:37-47 | `null` when the entry is missing or unparsable; a parsable entry reads back as exactly the user stored under `AUTH_KEY` |
| `Auth.Login` | src/lib/auth.ts:10-21 | on success, only `AUTH_KEY` is written and the user reads back; on failure, the store is unchanged |
| `Auth.Signup` | src/lib/auth.ts:23-31 | on success, only `AUTH_KEY` is written and the same user reads back; on failure, the store is unchanged |
| `Auth.Logout` | src/lib/auth.ts:33-35 | only `AUTH_KEY` is removed, and no user reads back afterwards |
| `Auth.LoginNamesByLocalPart` | src/lib/auth.ts:13-16 | logging in as `alice@example.com` names the user `alice` |
| `BookingStatus.HasRequest` | src/components/BookingStatus.tsx:17 | `!!requestId`: true exactly when the id is neither `null` nor `""` |
| `BookingStatus.Latest` | src/components/BookingStatus.tsx:14-25 | a fetched answer becomes the query's data; a failed fetch keeps the previous data, so data once present is never lost |
| `BookingStatus.RefetchInterval` | src/components/BookingStatus.tsx:18-24 | "stop" exactly when the latest data is confirmed or failed; otherwise 2000 ms, including before any data arrives |
| `BookingStatus.Poll` | src/components/BookingStatus.tsx:18-24 | the fetches issued are a prefix of the results; none but the last is terminal; if polling stopped early, it stopped on a terminal answer |
| `BookingStatus.StatusFetches` | src/components/BookingStatus.tsx:14-25 | no fetch at all when the request id is `null` or empty |
| `BookingStatus.PollStopsAtFirstTerminal` | src/components/BookingStatus.tsx:18-24 | polling fetches exactly the results up to and including the first terminal one |
| `BookingStatus.PollWithoutTerminalFetchesAll` | src/components/BookingStatus.tsx:18-24 | without a terminal answer, polling never stops |
| `BookingStatus.Classify` | src/components/BookingStatus.tsx:42-44 | no flag without data; pending exactly for a non-terminal status; confirmed exactly for `confirmed` and failed exactly for `failed` |
| `BookingStatus.FlagsAreExclusive` | src/components/BookingStatus.tsx:42-44 | no two flags hold together, and exactly one holds for any defined status |
| `BookingStatus.FailureText` | src/components/BookingStatus.tsx:93 | the message when it is non-empty, otherwise `Unable to allocate seats` |
| `BookingStatus.Render` | src/components/BookingStatus.tsx:27-103 | nothing without a request id; a loading card while loading; the reset button only in terminal states; the failure text exactly when failed; seats exactly when confirmed with a seat array present, and then they are the response's `allocatedSeats`; the panel shows the prop's id and the flags of the latest data |
| `BookingForm.NormaliseSeats` | src/components/BookingForm.tsx:71 | NaN and 0 become 1; every other integer is kept, even if negative or above 4 |
| `BookingForm.NormalisedPassesCheckIff` | src/components/BookingForm.tsx:39-71 | a normalised value passes the submit check exactly for NaN, 0, or an input in 1..4 |
| `BookingForm.BookingStarted` | src/components/BookingForm.tsx:21-34 | `onBookingStarted` gets the response's request id on success and is never called on error |
| `BookingForm.Form.constructor` | src/components/BookingForm.tsx:16 | the count starts at 1, which passes the submit check |
| `BookingForm.Form.OnChange` | src/components/BookingForm.tsx:71 | the field holds the normalised parse result |
| `BookingForm.Form.HandleSubmit` | src/components/BookingForm.tsx:37-48 | a request is sent exactly when the count is in 1..4, once, and it carries that count |
| `BookingForm.SubmitFlow` | src/components/BookingForm.tsx:21-48 | a request id is passed on only for a valid count and a successful response |
| `IndexPage.View` | src/pages/Index.tsx:21-58 | only the auth form without a user; otherwise the booking form exactly when there is no request id, and the status panel exactly when there is one |
| `IndexPage.FormXorStatus` | src/pages/Index.tsx:44-55 | with a user, exactly one of the form and the status panel is shown |
| `IndexPage.Page.constructor` | src/pages/Index.tsx:11-19 | the user comes from the session store; no request, position 0, seats 0, history key 0 |
| `IndexPage.Page.HandleBookingStarted` | src/pages/Index.tsx:25-29 | stores exactly the given id, position and seat count; the user and history key are unchanged |
| `IndexPage.Page.HandleReset` | src/pages/Index.tsx:31-35 | from any state: no request, 0, 0, and the form is shown again; the history key is unchanged |
| `IndexPage.Page.OnHistoryUpdate` | src/pages/Index.tsx:53 | the history key goes up by exactly 1; nothing else changes |
| `IndexPage.Page.OnLogout` | src/pages/Index.tsx:39 | the user is dropped and only the auth form is shown |
| `IndexPage.Page.OnAuthSuccess` | src/pages/Index.tsx:22 | the user is read again from the session store |
| `CoachLayout.Decimal` | src/components/CoachLayout.tsx:68 | the row number's text is non-empty and all digits |
| `CoachLayout.DecimalRoundTrip` | src/components/CoachLayout.tsx:68 | the row number's text reads back as that number in base 10, with no leading zero for a positive number |
| `CoachLayout.DecimalInjective` | src/components/CoachLayout.tsx:68 | different row numbers print differently |
| `CoachLayout.DecimalDistinct` | src/components/CoachLayout.tsx:68 | the same fact stated the other way round: distinct numbers give distinct text |
| `CoachLayout.SeatId` | src/components/CoachLayout.tsx:68 | the id is the row's decimal text followed by the seat letter |
| `CoachLayout.SeatIdInjective` | src/components/CoachLayout.tsx:68 | two ids agree only for the same row and the same letter |
| `CoachLayout.StatusOf` | src/components/CoachLayout.tsx:69-70 | the layout's status for a seat it has, `available` for a seat it lacks or when there is no layout |
| `CoachLayout.Grid` | src/components/CoachLayout.tsx:60-70 | 10 rows of 4 cells, so 40 cells |
| `CoachLayout.GridIsRowMajor` | src/components/CoachLayout.tsx:60-70 | the cells of row r carry the ids of row r + 1 and the letters A, B, C, D in order; each cell shows its own id's status |
| `CoachLayout.GridIdsDistinct` | src/components/CoachLayout.tsx:60-68 | all 40 cells have distinct ids |
| `CoachLayout.OffGridEntriesNotShown` | src/components/CoachLayout.tsx:60-70 | layouts that agree on the 40 grid ids render the same grid, so off-grid entries are never shown |
| `BookingHistory.ColourBand` | src/components/BookingHistory.tsx:84 | green from 70, amber for 40..69, red below 40; the bands do not overlap |
| `BookingHistory.ColourBandMonotone` | src/components/BookingHistory.tsx:84 | a higher rate never gets a worse colour |
| `BookingHistory.ShortId` | src/components/BookingHistory.tsx:154 | the first min(8, length) characters of the request id |
| `BookingHistory.ShowEntry` | src/components/BookingHistory.tsx:94-154 | the status and the requested seat count; seats only when present and non-empty; the message only when non-empty; the queue position whenever it is defined; an 8-character id prefix |
| `BookingHistory.Render` | src/components/BookingHistory.tsx:37-94 | the empty state exactly for an empty list; otherwise the total is the list's length, the entries appear in stored order, and the rate is `getSuccessRate()` of the store, in 0..100, with its band |
| `BookingHistory.LoadedRateMatchesShownList` | src/components/BookingHistory.tsx:16-55 | straight after a load, the rate shown is the rate of the list shown |
| `BookingHistory.Panel.constructor` | src/components/BookingHistory.tsx:10 | the panel starts with an empty list |
| `BookingHistory.Panel.LoadHistory` | src/components/BookingHistory.tsx:12-18 | the panel's list becomes what `getHistory` returns |
| `BookingHistory.Panel.HandleClearHistory` | src/components/BookingHistory.tsx:20-25 | on confirmation, the store and the panel are both cleared and the empty state shows; without it, nothing changes |

## Left out

- Network calls in `src/lib/api.ts` (`fetch`, HTTP status handling). Only their record shapes are modelled.
- The library's scheduling: timers, react-query retries of failed fetches, refetch on window focus, and the
  coach map's 3000 ms refresh. A poll is a finite sequence of fetch results passed to the stop rule.
- Rendering, CSS classes, icons, toasts, the loading placeholder of the coach map, and date formatting
  (`formatDate`). The `confirm` dialog is a boolean input, and `timestamp` is an opaque integer.
- The JSON text format. Stored text is either a document written by `JSON.stringify` or unparsable text.
  Valid JSON of another shape (a number, say) would be handed back unchecked by the code; the model has
  no such case.
- `localStorage` is one store shared by both services. The model gives each service its own `LocalStore`.
  Each service uses its own key, and every write is proved to touch only that key.
- `Storage.SuccessRate`: computed as exact half-up rounding of 100·c/t. The code rounds the floating-point
  value `(c / t) * 100`, and its representation error moves some ties: for 23 confirmed of 40, the double
  `(23 / 40) * 100` is 57.49999999999999, so the code shows 57 where the model gives 58.
- `Storage.GetSuccessRate`: uses `Storage.SuccessRate`, so for a stored history of 40 entries with 23
  confirmed it gives 58 where the code shows 57.
- `Auth.LoginResult`: counts the password's length in characters. JavaScript counts UTF-16 code units,
  which differ for characters outside the Basic Multilingual Plane.
- `Auth.SignupResult`: also counts the password's length in characters, not in UTF-16 code units.
- `BookingHistory.ShortId`: takes the first 8 characters of the request id. `slice(0, 8)` takes 8 UTF-16
  code units, which differ for characters outside the Basic Multilingual Plane. Request ids are opaque
  strings, and the model does not promise the code-unit prefix for ids with such characters.
- `KeyValue.LocalStore.SetItem`: always succeeds. `localStorage.setItem` can throw (a quota error, or a
  browser that blocks storage), and then `saveBooking`, `login` and `signup` throw too. The model has
  no such failure, so `Storage.SaveBooking`, `Auth.Login` and `Auth.Signup` do not cover it.
- The booking orchestrator that would write history, its wait clock and its write-once flag. The code has
  none: nothing calls `saveBooking`.
- Mismatched callbacks between the components are not repaired. `BookingStatus` declares only
  `requestId` and `onReset`, so the `queuePosition`, `numSeats` and `onHistoryUpdate` props from
  `Index` are ignored, and nothing fires the history-update callback. `BookingForm` calls
  `onBookingStarted` with one argument while `Index`'s handler takes three. The model gives each
  component's behaviour as written.
- The auth form component and the header are not part of this model. The header's logout is
  `Auth.Logout` followed by `IndexPage.Page.OnLogout`.
- JavaScript numbers are modelled as unbounded integers. `parseInt` is an input that is NaN or an integer.
