# Dashboard web assistant: upload wizards and profile helpers

This project is a Dafny model of the client-side logic of a chatbot-management dashboard. Most of the dashboard is view markup over a remote HTTP API. The model covers the three pieces that hold state logic:

- **Document Library page** (`DataOnboarding`, `data_onboarding.dfy`). It shows the table of uploaded documents, with a download and a delete action per row. It also holds a three-step upload dialog: (1) add files, (2) review, (3) done. The page is a class `Page` with the component's state variables as fields and one method per handler. A handler that awaits a request is split in two:
  - the method named after the handler runs the code up to the first `await`. A missing token throws before anything is awaited, so its `catch`/`finally` runs inside this method.
  - a `...Settled` method runs the rest when the request settles. It takes the outcome as a parameter.

  The deferred dialog reset (`setTimeout`) is an event method of its own, `DeferredReset`. Requests the page sends are appended to a `requests` log. Counters record how many requests are still in flight. This makes "sends no request" and "starts exactly one refresh" statable. A pure function, `ToDocument`, maps an API record to a table row.
- **Category onboarding wizard** (`Integrations`, `integrations.dfy`). It has four steps: pick categories, add files per category, review, done. The wizard is a class `Wizard` over:
  - the ordered selection,
  - a map from category title to a file list,
  - the processing flag,
  - the pending completion timer.

  `Valid()` states that the map's keys are exactly the selected categories and that the step stays in 1..4. Every method keeps `Valid()`. The page is not reachable through routing (`/integrations` redirects to the document library), but its logic is self-contained.
- **Profile page** (`Profile`, `profile.dfy`). It is modelled as pure functions over the page's state value:
  - the start and the settling of the profile fetch (the missing-token branch sets the error, stops loading and sends nothing),
  - the render precedence (loading, then error, then missing profile, then the profile card),
  - the avatar index: the sum of the e-mail's UTF-16 code units, mod 50, plus 1.

`common.dfy` (`Common`) holds three shared pieces:
- `File`, a class, so that file identity is object identity, as with `===` on objects;
- `Without`, which is `filter(x => x !== y)`, with its lemmas;
- `Option`.

Inputs the browser supplies are parameters:
- whether a bearer token is in local storage (`tokenPresent`);
- the user's confirmation of a delete;
- each request's outcome;
- the byte-size and date formatters (`formatBytes`, `formatDate`, function-valued constants of `Page`).

Guards that the UI enforces through hidden or `disabled` controls are method preconditions. Examples: Next needs pending files, Confirm is disabled while processing, a row's download button is disabled while that row downloads.

Three consequences of the code as written are proved, not assumed:

- **Document dialog.** The close button stays enabled during an upload. The deferred reset then sets step 1 and clears `isProcessing`, but the batch is still in flight. A second batch can then be confirmed, and each batch that resolves advances the step by one. So the step stays in 1..3 as long as no reset has run during an upload. `Page.Valid()` bounds the step by 3 plus the ghost count `orphanedBatches` of resets that interrupted an upload in progress. `OrphanedBatchScenario` reaches step 4.
- **Document downloads.** A row's download button is disabled only while that same row downloads, so a second row's download can start while the first is out. When the first settles, its `finally` clears `downloadingId` although the second request is still out. `OverlappingDownloadScenario` ends with no row marked and one download in flight.
- **Category wizard.** Back stays enabled while processing, and the completion timer advances the step from wherever the wizard is. `BackWhileProcessingScenario` ends on the upload step with nothing selected.

## Model

| member | source | states |
|---|---|---|
| `Common.Without` | pages/DataOnboarding.tsx:133 | Removing a file object drops exactly the entries identical to it. Every other entry stays with its multiplicity (the multiset is the old one with that object's count set to 0), and the length falls by the number of copies removed. |
| `Common.WithoutAppend` | pages/DataOnboarding.tsx:133 | Removal commutes with concatenation, so entries around the removed ones keep their relative order. |
| `Common.WithoutAbsent` | pages/Integrations.tsx:108 | Removing a file that is not in the list leaves the list unchanged. |
| `Common.WithoutNoDuplicates` | pages/Integrations.tsx:82 | Filtering a title out of a repetition-free selection leaves it repetition-free. |
| `DataOnboarding.ToDocument` | pages/DataOnboarding.tsx:191-198 | A row keeps the record's id (`document_id`) and name (`filename`) and has category "Other". Its size and date come from the formatters. It is Processed if and only if the raw status is "completed", otherwise Pending, so it is never Error. |
| `DataOnboarding.ToDocuments` | pages/DataOnboarding.tsx:191-198 | There is one row per record, with the same length and order. Row i is the mapping of record i. |
| `DataOnboarding.StatusCounts` | pages/DataOnboarding.tsx:197 | The number of Processed rows equals the number of completed records. Every other row is Pending, and no row is Error. |
| `DataOnboarding.UploadRequests` | pages/DataOnboarding.tsx:142-156 | One upload request is built per pending file, in the list's order. |
| `DataOnboarding.CanProceedToReview` | pages/DataOnboarding.tsx:173 | The dialog's Next gate: holds exactly when at least one file is pending. `Page.HandleNext` requires it. |
| `DataOnboarding.FetchStarted` | pages/DataOnboarding.tsx:175-186 | fetchDocuments up to its await never touches the documents or the wizard. With a token it sends exactly one listing request. Without one it sends nothing, raises the error toast and ends loading. |
| `DataOnboarding.Page.Valid` | pages/DataOnboarding.tsx:447-470 | The invariant every method keeps: the step is at least 1, and at most 3 plus the number of resets that interrupted an upload in progress (each orphans exactly one batch). So with no orphaned batch the step stays in 1..3. |
| `DataOnboarding.Page.constructor` | pages/DataOnboarding.tsx:105-114 | The initial state is closed, step 1, no files, loading, no download. Mounting then runs fetchDocuments once. |
| `DataOnboarding.Page.FetchDocuments` | pages/DataOnboarding.tsx:175-186 | The new state is `FetchStarted` of the old state. |
| `DataOnboarding.Page.FetchSettled` | pages/DataOnboarding.tsx:187-207 | Only an OK listing replaces the rows, mapped in order. A not-OK or rejected listing keeps the old rows and raises "Failed to load documents.". Loading is false afterwards in every case. |
| `DataOnboarding.Page.HandleDelete` | pages/DataOnboarding.tsx:245-259 | A cancelled confirmation changes nothing and sends no request. A missing token raises the delete-failed toast. Otherwise exactly one delete request is sent. The rows are untouched in all three cases. |
| `DataOnboarding.Page.DeleteSettled` | pages/DataOnboarding.tsx:260-272 | Success raises the success toast and starts one refresh. Failure raises the error toast. Neither case edits the rows. |
| `DataOnboarding.Page.HandleDownload` | pages/DataOnboarding.tsx:210-222 | Right after the request is sent, `downloadingId` is the row's id, and exactly one download request is added. A later download of another row or a settling download can change the id while this request is still out. A missing token raises the error toast and clears the id at once, with no request. |
| `DataOnboarding.Page.DownloadSettled` | pages/DataOnboarding.tsx:223-242 | `downloadingId` is null afterwards whatever the outcome. Only a failure raises a toast. |
| `DataOnboarding.Page.DismissToast` | pages/DataOnboarding.tsx:475 | The toast's close callback hides it and changes nothing else. |
| `DataOnboarding.Page.HandleOpenDialog` | pages/DataOnboarding.tsx:116 | Opens the dialog and changes nothing else. |
| `DataOnboarding.Page.HandleCloseDialog` | pages/DataOnboarding.tsx:117-120 | The dialog is closed immediately. The wizard state is untouched, and one reset is scheduled. |
| `DataOnboarding.Page.DeferredReset` | pages/DataOnboarding.tsx:120-124 | The reset sets step 1, empties the pending list and clears processing. Batches still in flight become orphans. |
| `DataOnboarding.Page.HandleAddFiles` | pages/DataOnboarding.tsx:127-130 | The new files follow the existing pending files in their given order. There is no de-duplication or validation, and nothing else changes. |
| `DataOnboarding.Page.HandleRemoveFile` | pages/DataOnboarding.tsx:132-134 | The file object is gone from the list. The other pending files stay in their order (via `Without`), and nothing else changes. |
| `DataOnboarding.Page.HandleNext` | pages/DataOnboarding.tsx:136 | Next is reachable only on step 1 with a non-empty pending list (canProceedToReview, line 173; button at 465). It advances the step by one. |
| `DataOnboarding.Page.HandleBack` | pages/DataOnboarding.tsx:137 | Back is reachable only on step 2 (disabled at 1, hidden at 3; line 449). It goes back one step and changes nothing else. |
| `DataOnboarding.Page.HandleProcess` | pages/DataOnboarding.tsx:139-156 | Confirm is reachable only on step 2 when not processing. With no token and pending files, it raises the error toast and sends nothing, leaving the step and files unchanged. Otherwise it sets processing and sends one upload per file. |
| `DataOnboarding.Page.UploadsSettled` | pages/DataOnboarding.tsx:157-170 | If all uploads resolved (HTTP status unchecked), processing is cleared, the success toast is raised, exactly one refresh starts and the step advances by one. If any rejected, processing is cleared, the error toast is raised, and the step and files are unchanged. |
| `DataOnboarding.OverlappingDownloadScenario` | pages/DataOnboarding.tsx:210-242 | Downloading two rows one after the other and letting the first settle leaves no row marked while one download is still in flight (button gate at line 404). |
| `DataOnboarding.OrphanedBatchScenario` | pages/DataOnboarding.tsx:117-163 | Closing the dialog during an upload and confirming a second batch leads to step 4. |
| `Integrations.ToggleSelection` | pages/Integrations.tsx:82 | Toggling flips the title's membership and leaves every other title alone. An unselected title goes at the end, a selected one is filtered out with the other titles kept in their order, and the selection stays repetition-free. |
| `Integrations.CanProceedToUpload` | pages/Integrations.tsx:123 | The step 1 Next gate: holds exactly when at least one category is selected. `Wizard.HandleNext` requires it on step 1. |
| `Integrations.HasFiles` | pages/Integrations.tsx:124 | `uploadedFiles[cat]?.length > 0`: a category with no list counts as having no files. |
| `Integrations.ToggleFiles` | pages/Integrations.tsx:84-91 | The title has a file list if and only if it is now selected. A newly listed title gets `[]`, an existing list is kept, and no other entry changes. |
| `Integrations.ToggleKeepsKeys` | pages/Integrations.tsx:80-95 | If the map's keys equal the selection before a toggle, they equal it after. |
| `Integrations.ReselectStartsEmpty` | pages/Integrations.tsx:86-90 | Deselecting and then reselecting a category leaves it with an empty file list. |
| `Integrations.CanProceedToReview` | pages/Integrations.tsx:124 | Holds if and only if every selected category has a file list with at least one file. A missing list counts as none. |
| `Integrations.Wizard.Valid` | pages/Integrations.tsx:241-278 | The invariant every method keeps: the step stays in 1..4, processing means one pending completion, and the map's keys are exactly the selected categories, each picked once from the six cards. |
| `Integrations.Wizard.constructor` | pages/Integrations.tsx:75-78 | The wizard starts at step 1 with an empty selection, an empty map, not processing. |
| `Integrations.Wizard.ToggleCategory` | pages/Integrations.tsx:80-95 | An unselected card is appended to the selection and gets an empty list. A selected card is removed with its entry. The map's keys keep equal to the selection. |
| `Integrations.Wizard.HandleAddFiles` | pages/Integrations.tsx:97-103 | Files are appended in order to that category's list only. All other entries and the key set are unchanged. |
| `Integrations.Wizard.HandleRemoveFile` | pages/Integrations.tsx:105-110 | Only that category's list loses the file object. All other entries and the key set are unchanged. |
| `Integrations.Wizard.HandleNext` | pages/Integrations.tsx:112 | Next is reachable on step 1 with a non-empty selection (canProceedToUpload), or on step 2 when canProceedToReview holds (line 272). It advances one step, within 1..4. |
| `Integrations.Wizard.HandleBack` | pages/Integrations.tsx:113 | Back is reachable on steps 2 and 3 (disabled at 1, hidden at 4). It goes back one step. |
| `Integrations.Wizard.HandleProcess` | pages/Integrations.tsx:115-117 | Confirm is reachable on step 3 when not processing. It sets processing and schedules exactly one completion. |
| `Integrations.Wizard.TimerFires` | pages/Integrations.tsx:117-120 | The completion clears processing and advances the step by one, staying within 1..4. |
| `Integrations.Wizard.OnboardMore` | pages/Integrations.tsx:203 | "Onboard More Data" returns to step 1 and keeps the selection and the files. |
| `Integrations.BackWhileProcessingScenario` | pages/Integrations.tsx:112-121 | Going back during processing and clearing the selection leaves the wizard on the upload step with nothing selected once the timer fires. |
| `Profile.StartFetch` | pages/Profile.tsx:20-29 | With no token, the error is "Access token not found", loading is false, no request is sent, and the profile is kept. With a token, the state is loading and one request is sent. |
| `Profile.FetchSettled` | pages/Profile.tsx:34-41 | Loading always ends. The body of an OK response is stored as the profile, `null` included. A not-OK response or a rejection keeps the profile and leaves a visible error: "Failed to fetch profile" for a not-OK response, the rejection's message when it is non-empty, and "An error occurred" when it is empty. |
| `Profile.Shown` | pages/Profile.tsx:45 | The truthiness of the error: only a non-empty string is shown. `Render` uses it for the error view. |
| `Profile.Render` | pages/Profile.tsx:44-47 | The precedence is loading, then a non-empty error, then a missing profile, then the profile card. Each case holds exactly under its condition, and the card's avatar index is in 1..50. |
| `Profile.NoTokenShowsError` | pages/Profile.tsx:21-26 | Mounting with no token sends no request and shows the "Access token not found" error. |
| `Profile.SettledFetchView` | pages/Profile.tsx:16-47 | Mounting with a token and settling the request shows the card if and only if a profile was fetched, "No profile data" if and only if the body was `null`, and the error view if and only if the request failed. The page never stays loading. |
| `Profile.CodeUnitSum` | pages/Profile.tsx:50 | The reduce over the e-mail's code units from 0 is non-negative and at most 65535 per code unit. |
| `Profile.AvatarIndex` | pages/Profile.tsx:50 | The avatar index lies in 1..50 and is congruent to the code-unit sum plus 1, mod 50. |
| `Profile.AvatarOfEmpty` | pages/Profile.tsx:50 | The empty e-mail gets avatar 1. |
| `Profile.SumPermutation` | pages/Profile.tsx:50 | The code-unit sum depends only on the multiset of code units. |
| `Profile.AvatarPermutation` | pages/Profile.tsx:50 | Any permutation of the e-mail gets the same avatar index. |

## Left out

- `formatBytes` (pages/DataOnboarding.tsx:29-36, pages/Integrations.tsx:13-20) is floating point, so it is an opaque `nat -> string` parameter of `Page`. The same applies to `toLocaleDateString`, which is locale-dependent and becomes `formatDate`.
- `fetch`, `localStorage`, `FormData`, blobs, object URLs, the anchor click and the `console.error` logging in each catch (pages/DataOnboarding.tsx:165, 201, 236, 268) are I/O. The logging is dropped; each of the others becomes a token-present flag or an outcome parameter. The saved download file is not modelled, only the page's state around it.
- `setTimeout` delays and `Promise.all` ordering are replaced by explicit events: `DeferredReset`, `TimerFires`, `UploadsSettled`. Timing and the order among in-flight batches are not modelled. All batches have the same effect when they settle.
- `DataOnboarding.Page.UploadsSettled`: batches in flight are counted, not recorded one by one, so the model does not know whether a settling batch was empty. An empty batch arises when a batch resolves after the pending list was emptied, by a reset or by going Back during the upload and removing every file, and Confirm is then pressed on step 2. `Promise.all([])` always resolves, but the model also lets such a batch settle as `SomeRejected`.
- Response bodies are assumed to have their declared shape: an `ApiDocument` record has every field with its declared type, and its `fileSize` and `chunksCount` are non-negative integers (the declared type is a JSON number), and a profile body is either a `ProfileData` value or `null`. Malformed JSON bodies are covered only as a rejection.
- `Profile.CodeUnitSum`: JavaScript adds the code units as doubles. The model uses unbounded integers, which agree until the sum passes 2^53, that is, for any e-mail shorter than about 137 billion code units. `Math.abs` is omitted because the sum is never negative.
- React's rendering itself is not modelled: markup, the step header, the drag-highlight flag in `FileUploadArea`, and the step content (only the step number is). A handler called with an empty `FileList` is a no-op append in both `HandleAddFiles` methods.
- The search box and the category and sort selects of the document library are not wired to any state.
- The chat, dashboard, uploaded-documents, login, register and settings pages, the sidebar, the layout, the toast's own timer and the routing are not part of this model. They hold no state logic beyond rendering fetched or hard-coded data.
