# Birthday gallery — a verified Dafny model

This project models the logic of a small client-side web app where guests upload
birthday photos and videos. The app has two snapshots, and both are modelled:

- **The single-page app** (`src/App.jsx`). `App` keeps a list of uploads.
  `UploadZone` turns a dropped file into a new upload and prepends it to the list.
  `Gallery` shows the uploads that match a search term, sorted by a sort key.
- **The routed app.**
  - `GalleryPage` loads the approved seed items. An effect filters them and sorts
    a fresh array in place.
  - `AdminPage` keeps a pending queue and an approved counter.
  - `UploadForm` and `UploadPage` are the two upload forms.
  - `MediaCard` holds the viewer's like toggle.

Modules, one per source file or shared concept:

| module | file | what it holds |
|---|---|---|
| `Seqs` | seqs.dfy | `Filter` (Array.prototype.filter), `CountIf`, `Subsequence` and their lemmas |
| `Text` | text.dfy | ASCII `ToLower`, `Includes` (String.prototype.includes) and `StartsWith` |
| `StableSort` | stable_sort.dfy | the specification `SortByKey` of a stable sort, its lemmas, and the in-place `InsertionSort` |
| `Media` | media.dfy | `File`, `MediaType`, `MediaItem` and the image/video classification |
| `App` | app.dfy | the single-page app: the gallery pipeline, `UploadZone`, `App` |
| `GalleryPage` | gallery_page.dfy | the gallery page class and its filter/sort view |
| `AdminPage` | admin_page.dfy | the moderation queue and counter |
| `UploadForm` | upload_form.dfy | the drag-and-drop upload form |
| `MediaCard` | media_card.dfy | the like toggle and the shown like count |
| `UploadPage` | upload_page.dfy | the hosted-backend upload page |
| `MockData` | mock_data.dfy | the seed data and small concrete scenarios |

How the model represents things:

- Every gallery comparator has the form `(a, b) => Rank(a) - Rank(b)`:
  - `newest`: the rank is `-uploadDate`.
  - `oldest`: the rank is `uploadDate`.
  - `most-liked`: the rank is `-likes`.
  - Any other key in `App.jsx`: the rank is `0`.

  ECMA-262 (2023 edition, section 23.1.3.30) requires `Array.prototype.sort` to be
  stable. So the sort is modelled by `StableSort.SortByKey`, a stable insertion sort.
  `GalleryPage` sorts its fresh array in place with `StableSort.InsertionSort`.
- Stability is stated as follows: for every key value `k`, the items of the output
  with key `k` appear in the same order as in the input.
- Side effects are recorded as fields of the class, in the order they happen:
  - `alert` messages;
  - `navigate` targets;
  - calls to the success callback;
  - calls to the media host;
  - insert requests sent to the table, logged whether or not the table accepts the row.
- Outside results are parameters of the methods that use them:
  - what the media host answered (`HostResult`);
  - whether the table insert failed;
  - whether the success callback throws;
  - the two clock readings: `Date.now()` for the id and `new Date()` for the upload date;
  - the object URL.

## Model

| member | source | states |
|---|---|---|
| `Text.IncludesIff` | src/App.jsx:207-208 | `includes` as a left-to-right scan is true exactly when the term occurs at some position of the string |
| `Text.EmptyIncluded` | src/App.jsx:206-209 | the empty term is included in every string |
| `StableSort.SortByKey` | src/App.jsx:210-217 | the stable sort itself, also used for src/pages/GalleryPage.jsx:41-47; its own contract keeps the length, and `SortPermutes`, `SortSorted` and `SortStable` carry the rest |
| `StableSort.SortPermutes` | src/App.jsx:210-217 | the sorted list is a permutation of its input (same multiset) |
| `StableSort.SortSorted` | src/App.jsx:210-217 | the sorted list is in ascending rank order, for every pair of positions |
| `StableSort.SortStable` | src/App.jsx:210-217 | for every rank `k`, the items with rank `k` keep their input order (stability) |
| `StableSort.SortOfSorted` | src/App.jsx:215 | an input already in rank order comes back unchanged, so a comparator that always returns 0 keeps the input order |
| `StableSort.InsertLast` | src/pages/GalleryPage.jsx:41-47 | one pass of the in-place sort: `a[..i+1]` becomes `a[i]` inserted into the sorted prefix after every element of equal rank; the rest of the array is untouched |
| `StableSort.InsertionSort` | src/pages/GalleryPage.jsx:41-47 | sorting the array in place leaves exactly `SortByKey` of its old contents |
| `App.Matches` | src/App.jsx:206-208 | an upload matches iff the lower-cased term occurs, at some position, in the lower-cased caption or in the lower-cased uploader |
| `App.FilteredUploadsPermutes` | src/App.jsx:205-217 | the gallery list is a permutation of the matching uploads; each matching upload appears as often as in `uploads`, and a non-matching one never appears |
| `App.FilteredUploadsMembers` | src/App.jsx:206-209 | an upload is shown iff it is in `uploads` and its lower-cased caption or uploader contains the lower-cased term |
| `App.EmptySearchKeepsAll` | src/App.jsx:206-209 | with an empty term every upload is shown (same multiset as `uploads`) |
| `App.FilteredUploadsByDate` | src/App.jsx:212-213 | `newest` gives non-increasing `uploadDate`; `oldest` gives non-decreasing `uploadDate` |
| `App.FilteredUploadsByLikes` | src/App.jsx:214 | `most-liked` gives non-increasing `likes` |
| `App.MostLikedIsStable` | src/App.jsx:214 | under `most-liked`, uploads with equal likes keep their filtered order |
| `App.UnknownSortKeepsOrder` | src/App.jsx:215 | any other sort key returns the filtered list in input order |
| `App.FilteredUploads` | src/App.jsx:205-217 | the gallery list is never longer than `uploads` |
| `App.NewUpload` | src/App.jsx:67-75 | a new upload has 0 likes and an empty caption and uploader; its type is video iff the MIME type starts with "video"; the id is the first clock reading (`Date.now()`) and the upload date the second (`new Date()`); url is the object URL |
| `App.NewUploadMatchesOnlyEmptyTerm` | src/App.jsx:70-71 | a fresh upload matches a search term iff the term is empty |
| `App.App.constructor` | src/App.jsx:509 | the upload list starts as the seed uploads |
| `App.App.HandleUpload` | src/App.jsx:511-513 | the new list is `[newUpload] + old list`: one longer, the new upload first, the old uploads unchanged and in order |
| `App.UploadZone.constructor` | src/App.jsx:57-58 | the zone starts neither uploading nor successful |
| `App.UploadZone.OnDrop` | src/App.jsx:61-85 | as written: with no accepted file the zone stays uploading and nothing is added; otherwise the new upload is prepended, the zone shows success, and one redirect to /gallery is recorded |
| `App.UploadZone.OnDropChecked` | src/App.jsx:61-85 | corrected: the zone is never left uploading; with no accepted file nothing else changes |
| `App.RejectedDropAsWritten` | src/App.jsx:66-69 | a drop with no accepted file leaves the spinner on and adds no upload |
| `App.RejectedDropChecked` | src/App.jsx:66-69 | with the guard, the same drop leaves the zone idle and adds no upload |
| `Media.MediaTypeOf` | src/pages/UploadPage.jsx:31 | the media type is video iff the declared MIME type starts with "video", and image otherwise |
| `GalleryPage.Matches` | src/pages/GalleryPage.jsx:33-36 | an item matches iff the lower-cased term occurs in its lower-cased caption, when it has one, or in its lower-cased uploader name |
| `GalleryPage.SortedView` | src/pages/GalleryPage.jsx:39-51 | the `switch`: its own contract keeps the length; `ViewPermutes`, `ViewOrdered`, `ViewStable` and `UnknownSortKeepsOrder` carry the rest |
| `GalleryPage.View` | src/pages/GalleryPage.jsx:33-51 | the shown list is never longer than the loaded items |
| `GalleryPage.ViewPermutes` | src/pages/GalleryPage.jsx:33-51 | after the switch, the list is a permutation of the filtered items |
| `GalleryPage.ViewMembers` | src/pages/GalleryPage.jsx:33-36 | an item is shown iff it is loaded and matches; each shown item appears as often as it was loaded |
| `GalleryPage.CaptionlessMatches` | src/pages/GalleryPage.jsx:34-35 | an item without a caption matches iff its uploader name contains the term |
| `GalleryPage.EmptySearchShowsAll` | src/pages/GalleryPage.jsx:33-36 | with an empty term every loaded item is shown |
| `GalleryPage.ViewOrdered` | src/pages/GalleryPage.jsx:39-48 | `newest` gives non-increasing dates; `oldest` gives non-decreasing dates; `most-liked` gives non-increasing likes |
| `GalleryPage.ViewStable` | src/pages/GalleryPage.jsx:41-47 | items with equal dates (`newest`, `oldest`) or equal likes (`most-liked`) keep their filtered order |
| `GalleryPage.UnknownSortKeepsOrder` | src/pages/GalleryPage.jsx:49-50 | the default branch leaves the list in filter order |
| `GalleryPage.LoadedAreApproved` | src/pages/GalleryPage.jsx:23 | an item is loaded iff it is an approved seed item; each one is loaded as often as it is seeded, and in seed order |
| `GalleryPage.GalleryPage.constructor` | src/pages/GalleryPage.jsx:11-15 | the page starts with empty lists, loading, an empty term and the key `newest`; the shown list is no longer than the loaded one |
| `GalleryPage.GalleryPage.LoadMediaItems` | src/pages/GalleryPage.jsx:23-26 | both lists become the approved seed items, and loading ends; the term and the key are kept, even one typed during the load |
| `GalleryPage.GalleryPage.FilterAndSort` | src/pages/GalleryPage.jsx:32-54 | `filteredItems` becomes `View(mediaItems, searchTerm, sortBy)`; `mediaItems`, the term and the key are unchanged |
| `GalleryPage.GalleryPage.SetSearchTerm` | src/pages/GalleryPage.jsx:98 | a new term re-runs the effect with that term; the loaded items, the key and the loading flag are kept |
| `GalleryPage.GalleryPage.SetSortBy` | src/pages/GalleryPage.jsx:108 | a new key re-runs the effect with that key; the loaded items, the term and the loading flag are kept |
| `GalleryPage.GalleryPage.ShowingCounts` | src/pages/GalleryPage.jsx:121 | in "Showing X of Y", X is the number of shown items, Y the number of loaded items, and X is at most Y, in every state the page renders, including the one right after a load that has not yet applied a typed term |
| `AdminPage.WithoutId` | src/pages/AdminPage.jsx:43 | the filter used by approve and by reject (line 48): never longer than the list, and every remaining item was pending and has another id |
| `AdminPage.WithoutIdRemoves` | src/pages/AdminPage.jsx:43 | after the id filter, no item has that id; every other item remains, in its original relative order |
| `AdminPage.WithoutIdLength` | src/pages/AdminPage.jsx:43 | the pending list shrinks by exactly the number of items with that id |
| `AdminPage.WithoutAbsentId` | src/pages/AdminPage.jsx:48 | filtering out an id that is not pending leaves the list unchanged |
| `AdminPage.ApproveTotal` | src/pages/AdminPage.jsx:42-45 | approving changes the total (counter + pending length, line 151) by 1 minus the id's count; the total is unchanged when the id is pending once |
| `AdminPage.RejectTotal` | src/pages/AdminPage.jsx:47-49 | rejecting lowers the total by the id's count: by 1 when the id is pending once, by 0 when it is absent |
| `AdminPage.AdminPage.constructor` | src/pages/AdminPage.jsx:24-26 | the page starts with no pending items, a counter of 0, and loading |
| `AdminPage.AdminPage.LoadData` | src/pages/AdminPage.jsx:34-36 | the pending list is the seed list; the counter is the number of approved seed items |
| `AdminPage.AdminPage.HandleApprove` | src/pages/AdminPage.jsx:42-45 | the id is filtered out of the pending list; the counter rises by exactly 1, even when the id was not pending |
| `AdminPage.AdminPage.HandleReject` | src/pages/AdminPage.jsx:47-49 | the id is filtered out of the pending list; the counter is unchanged |
| `AdminPage.AdminPage.TotalUploads` | src/pages/AdminPage.jsx:151 | the total shown is never below the approved counter |
| `UploadForm.SubmitEnabled` | src/components/common/UploadForm.jsx:188 | submit is enabled iff a file is selected and no upload is in progress |
| `UploadForm.IsImageOrVideo` | src/components/common/UploadForm.jsx:37 | the type test of the selection; it has no contract of its own, and `UploadForm.UploadForm.HandleFileSelect` states what it decides |
| `UploadForm.UploadForm.constructor` | src/components/common/UploadForm.jsx:9-12 | no file, empty caption, not uploading, no drag highlight |
| `UploadForm.UploadForm.HandleDrag` | src/components/common/UploadForm.jsx:15-23 | `dragenter` and `dragover` set the highlight; `dragleave` clears it; any other event leaves it; nothing else changes |
| `UploadForm.UploadForm.HandleFileSelect` | src/components/common/UploadForm.jsx:36-42 | a file is selected iff its type starts with "image/" or "video/"; otherwise the selection is unchanged and one alert is recorded |
| `UploadForm.UploadForm.HandleDrop` | src/components/common/UploadForm.jsx:25-34 | the highlight always goes off; only a first dropped file goes through the selection check |
| `UploadForm.UploadForm.HandleFileInputChange` | src/components/common/UploadForm.jsx:44-49 | only a first chosen file goes through the selection check |
| `UploadForm.UploadForm.RemoveFile` | src/components/common/UploadForm.jsx:51-56 | the selection is cleared, so submit is disabled |
| `UploadForm.UploadForm.SetCaption` | src/components/common/UploadForm.jsx:178 | the caption becomes the typed text |
| `UploadForm.UploadForm.BeginSubmit` | src/components/common/UploadForm.jsx:58-66 | without a file: one alert, and not uploading; with a file: uploading, and submit is disabled |
| `UploadForm.UploadForm.FinishSubmit` | src/components/common/UploadForm.jsx:68-85 | the timer always resolves, so the file and caption are always cleared and the callback is called once; exactly when the callback throws, one failure alert follows; in every case uploading ends |
| `UploadForm.UploadForm.HandleSubmit` | src/components/common/UploadForm.jsx:58-86 | the whole handler: no file means one alert, no callback and nothing cleared; with a file, the form is cleared, the callback is called once, uploading ends, and the failure alert appears iff the callback throws |
| `MediaCard.DisplayedLikes` | src/components/common/MediaCard.jsx:96 | the shown count lies in `[likes, likes + 1]` and is `likes + 1` iff the viewer likes the item |
| `MediaCard.AltText` | src/components/common/MediaCard.jsx:38 | the alt text is the caption when it is present and non-empty, otherwise 'Birthday memory'; it is never empty |
| `MediaCard.MediaCard.constructor` | src/components/common/MediaCard.jsx:6-7 | a card starts not liked |
| `MediaCard.MediaCard.HandleLike` | src/components/common/MediaCard.jsx:10-12 | the like flag flips, and the shown count follows it |
| `MediaCard.MediaCard.LikeCount` | src/components/common/MediaCard.jsx:96 | the shown count stays within one of the stored like count |
| `MediaCard.LikeTwice` | src/components/common/MediaCard.jsx:10-12 | two likes restore the flag and the shown count |
| `UploadPage.MomentRowFor` | src/pages/UploadPage.jsx:25-32 | the row is not approved; it holds the title, the caption, `poster_name = poster` and `media_url = secure_url`; its type is video iff the MIME type starts with "video" |
| `UploadPage.AllFieldsGiven` | src/pages/UploadPage.jsx:22 | the guard, negated; it has no contract of its own, and `UploadPage.UploadPage.HandleSubmit` states both of its outcomes |
| `UploadPage.UploadPage.constructor` | src/pages/UploadPage.jsx:8-12 | empty fields, no media, no preview |
| `UploadPage.UploadPage.SetFields` | src/pages/UploadPage.jsx:45-47 | the three text fields take the typed values |
| `UploadPage.UploadPage.HandleMediaChange` | src/pages/UploadPage.jsx:15-19 | the first file becomes the media and its object URL the preview; with no file the media is cleared and the preview kept |
| `UploadPage.UploadPage.HandleSubmit` | src/pages/UploadPage.jsx:21-40 | a missing field: one alert, no remote call. Otherwise the file is sent to the media host once. If the host fails, nothing else happens. If it succeeds, exactly one insert request with that row is sent; an insert error gives one alert and no navigation, and success gives one navigation to /gallery. The fields are never cleared, and every row sent is unapproved |
| `MockData.SeedAllApproved` | src/utils/mockData.js:2-69 | all six seed media items are approved, so the gallery loads them all in seed order |
| `MockData.SeedAdminTotals` | src/pages/AdminPage.jsx:34-35 | with the seed data the total is 9; approving 'pending-1' keeps it at 9; rejecting it gives 8 |
| `MockData.CakeSearchScenario` | src/pages/GalleryPage.jsx:32-54 | over a "cake time" record and a "party" record, the term "cake" shows only the first |
| `MockData.MostLikedScenario` | src/pages/GalleryPage.jsx:46-47 | the same two records with an empty term, sorted `most-liked`: the 9-like record comes before the 5-like record |
| `MockData.TypedDuringLoad` | src/pages/GalleryPage.jsx:23-25 | "cake" typed before the load ends: the load shows "Showing 2 of 2" with the term not applied; once the effect runs, "Showing 1 of 2" |

## Findings

| source | as written | input that shows it | evidently intended | confidence | as-written member | corrected member |
|---|---|---|---|---|---|---|
| src/App.jsx:61-69 | `onDrop` sets `uploading` to true, waits, then reads `acceptedFiles[0]` without a check. When no file was accepted, `URL.createObjectURL(undefined)` throws, the handler stops, and `uploading` is never reset. | A drop the zone rejects: a file over 10 MB, a type outside the accept list, or two files while `multiple: false`. The drop-zone library then calls `onDrop` with `acceptedFiles = []`. | A rejected drop returns the zone to idle, with no spinner. | medium (the drop-zone library's source is not part of this model); not executed | `App.RejectedDropAsWritten` (via `App.UploadZone.OnDrop`) | `App.RejectedDropChecked` (via `App.UploadZone.OnDropChecked`) |

## Notes on the code

The model follows the code in each case below.

- `handleApprove` (src/pages/AdminPage.jsx:42-45) filters the pending list and adds
  1 to a counter. It adds 1 even for an id that is not pending, and no gallery list
  receives the item.
- `UploadPage.handleSubmit` (src/pages/UploadPage.jsx:24) does not catch a throwing
  media-host call. The handler stops there, with no alert, no insert and no
  navigation.
- The upload page (src/pages/UploadPage.jsx:21-40) never clears its fields, after a
  success or a failure. After a success it navigates away.
- The single-page gallery (src/App.jsx:205-209) has no approval filter. It shows
  every upload.
- The gallery page's default sort branch (src/pages/GalleryPage.jsx:49-50) does not
  sort, and leaves the filtered list alone. The single-page gallery does sort, with
  a comparator that always returns 0 (src/App.jsx:215); the order is the same.
- In `UploadForm.handleSubmit` (src/components/common/UploadForm.jsx:69-85) the
  awaited step is a timer, which cannot reject. The catch block runs only when
  `onUploadSuccess` throws, after the form has been reset.

## Left out

- Rendering, styling, animation and routing are left out. Calls to `navigate` are recorded as paths.
- `formatFileSize` is left out because it uses floating-point logarithms and `toFixed`.
- `formatDate` and `toLocaleDateString` are left out because they are locale formatting.
- Date parsing with `new Date(...)` is left out. `uploadDate` is an integer timestamp, so invalid dates (`NaN` comparisons) are not modelled.
- JavaScript numbers are doubles. Likes and dates are unbounded integers here, and the comparator subtraction is exact.
- `toLowerCase` folds only ASCII letters. Full Unicode case mapping is not modelled.
- `setTimeout` delays and the simulated async loads are not modelled as time.
  - Their outcomes are method inputs, or the step after the delay is a separate method.
  - The redirect that `UploadZone` schedules 1.5 s after a success is recorded at once.
  - `GalleryPage.LoadMediaItems` stops at the state set at lines 23-26. React then re-runs the effect, which the model offers as `FilterAndSort`.
- src/utils/cloudinary and src/utils/supabaseClient are not part of this model.
  - The media host is the `HostResult` input.
  - The insert is the `insertFails` input.
- `URL.createObjectURL` is a parameter. The clock is two parameters, because the code reads it twice: `Date.now()` for the id (src/App.jsx:68) and `new Date()` for the upload date (line 74).
- The drop zone's accept and size limits are not modelled. `OnDrop` takes the accepted files as given.
- The `isLoading` spinners of the gallery and admin pages are kept as fields only. The card's `imageLoaded` flag is left out because it only affects rendering.
- Resetting the DOM file input value (`fileInputRef.current.value = ''`) is left out because it is DOM state the model does not hold.
- `MockData`: the seed captions are too long to run concrete search lemmas over them. The search and sort scenarios use two short records; the admin totals use the seed data.
- `AdminPage.AdminPage.TotalUploads`: its contract states only that the total is at least the approved counter. The exact figure is `Total`, which `ApproveTotal` and `RejectTotal` are about.
