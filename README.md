# Drone image review: a verified model

This is a Dafny model of the core of a browser application for drone-image
archaeology. A pilot uploads drone photographs. The pilot then locates and
annotates them in an editor and submits them. An archaeologist reviews each
image of a submission: worthy of review, inconclusive, in analysis or
discarded with a reason.

The model covers four parts:

- **The review state machine over the submission store.** The store is a
  class holding the persisted list of submissions, newest first. The
  submission service looks records up, creates them, patches them, deletes
  them, counts statuses and recomputes the aggregate status. The review
  service writes single and bulk per-image status changes.
- **The archaeologist's screens.** The submission page routes clicks,
  discards and bulk marks to the review service. The image detail dialog
  handles previous/next navigation, keys and action buttons. The discard
  dialog holds the reason and a comment bounded to 500 characters.
- **The pilot's editor.** It models upload, selection, metadata editing with
  the common-value display, AI analysis of the selection, deletion with
  reselection, the validity gate, reset and submission.
- **The EXIF helpers.** They convert degrees/minutes/seconds to decimal
  degrees, reformat the EXIF stamp into a date and a time, and join make and
  model into a drone name. They also cover the extraction that assembles an
  image's metadata from whatever tags the file has.

Each stateful component is a class whose fields are its state, and its
handlers are methods. Each method's `ensures` gives the whole new state as a
function of the old one, through a `State()` snapshot. Those functions carry
the lemmas:

- re-applying a review is idempotent;
- a bulk update of one image is the single update;
- refreshing twice is refreshing once;
- the analysis loop has a closed form.

`Lists` and `JsStrings` model the JavaScript built-ins the core relies on:
`findIndex`, `filter`, `trim`, `split` and `join`, with their own laws.

Files:

- `types.dfy`: the shared types and the label tables.
- `lists.dfy`, `js_strings.dfy`: the built-ins.
- `submission_service.dfy`, `review_service.dfy`: the store and the review
  service.
- `submission_detail.dfy`, `image_detail_modal.dfy`, `discard_modal.dfy`: the
  archaeologist's components.
- `pilot_editor.dfy`: the application shell's editor.
- `exif_service.dfy`: the EXIF helpers.

Three quirks of the source are modelled as written:

- **An image without review data.**
  - The statistics count it as pending (`SubmissionService.EffectiveStatus`).
  - The aggregate counts it as reviewed (`SubmissionService.CountsAsReviewed`).
  - `SubmissionService.MissingReviewDataDisagrees` states the disagreement.
- **A new submission is stored as in review even with no images.**
  Recomputing the aggregate of an empty submission gives completed
  (`SubmissionService.CreatedStatusMatchesAggregateIffNonEmpty`).
- **A FileReader error is not caught by the URL fallback.** The conversion
  returns its FileReader promise from inside the `try` without awaiting it,
  so the `catch` that returns the original URL (services/submissionService.ts:69-72)
  handles only a failing fetch. A reader error rejects the whole creation:
  nothing is saved and the editor stays where it was
  (`SubmissionService.ReaderFailureRejects`, `PilotEditor.PilotApp.HandleSubmit`).

Nondeterministic inputs are parameters:

- timestamps, submission ids and the random submitter pick;
- the geocoded centroid and area name;
- the AI analysis, as a function from image to optional result (`None`
  models a thrown error);
- the blob-to-data-URL conversion, as a function to a `Conversion`: a data
  URL, a failed fetch or a FileReader error;
- the EXIF library's answer, `ExifService.ExifRead`.

## Model

| member | source | states |
|---|---|---|
| Types.StatusesExactlyFive | types.ts:15-20 | The image review status has exactly five distinct values. |
| Types.ReasonsExactlyFive | types.ts:22-27 | The discard reason has exactly five distinct values. |
| Types.SubmissionStatusExactlyTwo | types.ts:29-31 | A submission is either in review or completed, and the two have different wire names. |
| Types.ParseStatus | types.ts:15-20 | A wire name that parses comes from the status it parses to. |
| Types.StatusNameRoundTrip | types.ts:15-20 | Every status's wire name parses back to that status. |
| Types.LabelTablesTotal | types.ts:78-109 | The full and short label tables and the colour table give a non-empty entry for each of the five statuses. The reason label table gives one for each of the five reasons. |
| Types.LabelTablesDistinct | types.ts:78-109 | Different statuses have different labels and different colours. |
| Types.StatusLabel | types.ts:78-84 | The full label of each status is non-empty. |
| Types.StatusLabelShort | types.ts:87-93 | The badge label of each status is non-empty and no longer than the full label. |
| Types.StatusColors | types.ts:103-109 | Each status's colours are a `border-` class and a `bg-` class. |
| Types.DiscardReasonLabel | types.ts:95-101 | The label of each discard reason is non-empty. |
| Types.ReasonLabelsDistinct | types.ts:95-101 | Different discard reasons have different labels. |
| SubmissionService.SubmissionIndex | services/submissionService.ts:147-149 | `findIndex` on submission ids: -1 exactly when no record has the id, otherwise the first position that has it. |
| SubmissionService.ImageIndex | services/reviewService.ts:32-36 | `findIndex` on image ids: -1 exactly when no image has the id, otherwise the first position that has it. |
| SubmissionService.FindImage | components/archaeologist/SubmissionDetail.tsx:121-123 | `find` on image ids: absent exactly when no image has the id, otherwise the first image with it. |
| SubmissionService.Store.GetSubmissionById | services/submissionService.ts:78-81 | Absent exactly when no stored record has the id, otherwise the first record with that id. |
| SubmissionService.CountsPartition | services/submissionService.ts:185-204 | Every image falls under exactly one of the five counters, so the counters add up to the number of images. |
| SubmissionService.CountsAsReviewed | services/submissionService.ts:155 | An image counts as reviewed exactly when it has no review data or its recorded status is not pending review. |
| SubmissionService.AllReviewed | services/submissionService.ts:154-156 | `every` over the images: every image in the list counts as reviewed. |
| SubmissionService.AggregateStatus | services/submissionService.ts:154-158 | The recomputed status is completed exactly when all images count as reviewed. It is in review exactly when some image has review data explicitly at pending. |
| SubmissionService.EffectiveStatus | services/submissionService.ts:186 | An image without review data has the pending status, and otherwise its recorded status. It is pending exactly when the image does not count as reviewed or has no review data. |
| SubmissionService.CountStatus | services/submissionService.ts:185-204 | The number of images with a given effective status is never more than the number of images. |
| SubmissionService.CountStatusExtremes | services/submissionService.ts:185-204 | A status counts zero exactly when no image has it, and counts every image exactly when all images have it. |
| SubmissionService.GetSubmissionStats | services/submissionService.ts:168-207 | The loop's counters equal the number of images of each effective status, where no review data counts as pending. The total is the image count and the five counters sum to it. |
| SubmissionService.NoPendingMeansCompleted | services/submissionService.ts:154-159 | With no image counted as pending by the statistics, the aggregate is completed. |
| SubmissionService.MissingReviewDataDisagrees | services/submissionService.ts:186 | An image without review data is pending for the statistics but completed for the aggregate. |
| SubmissionService.PendingImageMeansInReview | services/submissionService.ts:154-159 | An image explicitly set back to pending review makes the aggregate in review. |
| SubmissionService.EmptyIsCompleted | services/submissionService.ts:154-156 | A submission with no images is vacuously completed when recomputed. |
| SubmissionService.PersistableUrl | services/submissionService.ts:53-73 | `data:` URLs and URLs that are not `blob:` pass through unchanged. A `blob:` URL becomes its data URL, or stays as it was when the fetch fails. It rejects exactly when it is a `blob:` URL whose FileReader fails, since that promise escapes the `catch`. |
| SubmissionService.PersistableUrlIdempotent | services/submissionService.ts:56-58 | When conversions yield `data:` URLs, normalising a URL that resolved again changes nothing. |
| SubmissionService.NormalizedImage | services/submissionService.ts:94-100 | A stored image keeps its id, name, metadata and AI result. Its URL is the resolved one and its review data is exactly the pending status. |
| SubmissionService.NormalizedImages | services/submissionService.ts:91-102 | `Promise.all` resolves exactly when every image's conversion does. Then the stored images are as many as the input images, each the input image with its resolved URL, with the same ids in the same order. |
| SubmissionService.ReaderFailureRejects | services/submissionService.ts:63-68 | One `blob:` image whose FileReader fails rejects the whole `Promise.all`, whatever the other images are. |
| SubmissionService.NoReaderFailureConverts | services/submissionService.ts:69-72 | With no FileReader error, every conversion resolves, failed fetches included, so the creation goes through. |
| SubmissionService.CreatedStatusMatchesAggregateIffNonEmpty | services/submissionService.ts:114 | When the conversions resolve, every image of the new submission is pending. Recomputing its aggregate gives the stored in-review status exactly when it has at least one image. |
| SubmissionService.SubmitterName | services/submissionService.ts:111 | A given non-empty name is kept; otherwise the name is one of the demo names. |
| SubmissionService.Store.CreateSubmission | services/submissionService.ts:87-125 | When every conversion resolves, the store grows by exactly one record, in front. The record is in review, with the given id, time, name rule and location, and its images are the input images normalised, in input order. When one rejects, nothing is created and the store is unchanged. |
| SubmissionService.Merge | services/submissionService.ts:136 | A field present in the patch replaces the record's field; every other field is kept. |
| SubmissionService.MergeLaws | services/submissionService.ts:136 | An empty patch changes nothing, and applying a patch twice is the same as applying it once. |
| SubmissionService.Store.UpdateSubmission | services/submissionService.ts:130-140 | An unknown id returns nothing and leaves the store unchanged. Otherwise only the first matching record is replaced by the merge, and that merge is returned. |
| SubmissionService.Store.UpdateSubmissionStatus | services/submissionService.ts:145-163 | An unknown id gives in review and writes nothing. Otherwise only the first matching record's status changes, to the recomputed aggregate. Completed is written only for a found record. |
| SubmissionService.RemoveSubmission | services/submissionService.ts:214 | The survivors are exactly the records without that id. Nothing is removed exactly when no record has it. |
| SubmissionService.RemoveSubmissionKeepsOrder | services/submissionService.ts:214 | Removal distributes over concatenation, so the survivors keep their order. |
| SubmissionService.RemoveAbsentSubmission | services/submissionService.ts:216 | Removing an id no record has gives the store back unchanged. |
| SubmissionService.Store.DeleteSubmission | services/submissionService.ts:212-220 | The result is true exactly when some record had the id. Every such record is removed, the rest stay in order, and nothing changes otherwise. |
| SubmissionService.Store.UpdateImageAIAnalysis | services/submissionService.ts:225-245 | The result is false exactly when either id is missing, and then the store is unchanged. Otherwise only that image's AI result is replaced. |
| ReviewService.ReviewRecord | services/reviewService.ts:39-45 | The new review data carries the status, the time and the fixed reviewer. The reason and comment survive only for a discard and are absent for every other status. |
| ReviewService.WithImages | services/reviewService.ts:50 | A submission with new images gets the aggregate recomputed from them; id, submitter, time and location are kept. |
| ReviewService.ApplyReview | services/reviewService.ts:20-53 | An unknown submission or image leaves the store unchanged. Otherwise only the target image's review data is replaced, wholesale. Its submission's aggregate is recomputed, and every other image and submission and the order stay as they were. |
| ReviewService.UpdateImageStatus | services/reviewService.ts:20-53 | The store becomes the single update of that image. The result is absent exactly when either id is unknown, and is otherwise the stored updated image. |
| ReviewService.BulkImages | services/reviewService.ts:73-88 | The bulk loop keeps the list's length and its ids in order. |
| ReviewService.BulkSharesOneRecord | services/reviewService.ts:71-85 | Every found requested image gets the same record, with the batch's single timestamp. Every other image, in particular every image not requested, is kept. |
| ReviewService.FoundIds | services/reviewService.ts:73-88 | The requested ids that some image has, in request order. |
| ReviewService.BulkHits | services/reviewService.ts:73-88 | One returned image per found requested id, duplicates repeated, in request order, each carrying the new record. |
| ReviewService.BulkHitsAreStored | services/reviewService.ts:79-86 | Every returned image is one of the images the store now holds. |
| ReviewService.ApplyBulk | services/reviewService.ts:58-96 | An unknown submission leaves the store unchanged. Otherwise only that submission changes: its images as the bulk loop leaves them, with the aggregate recomputed even when no id was found. |
| ReviewService.BulkStep | services/reviewService.ts:73-88 | One more requested id updates the first image with that id, if any, and appends it to the result. |
| ReviewService.BulkUpdateStatus | services/reviewService.ts:58-96 | The loop over the requested ids leaves the store as the bulk update describes. It returns nothing for an unknown submission and otherwise the found images in request order. |
| ReviewService.ApplyBulkIsTwoWrites | services/reviewService.ts:90-93 | The bulk result is the save of the images followed by the aggregate recomputation. |
| ReviewService.StatusIconsDistinct | services/reviewService.ts:101-116 | Different statuses have different icons. |
| ReviewService.GetStatusIcon | services/reviewService.ts:101-116 | Each of the five icon names is returned exactly for its own status. |
| ReviewService.IsReviewed | services/reviewService.ts:121-123 | A status is reviewed exactly when it is one of the four statuses other than pending review. |
| ReviewService.IsReviewedIsAggregateTest | services/reviewService.ts:121-123 | All images count as reviewed exactly when `isReviewed` holds for the status of every image that has review data. |
| ReviewService.ApplyReviewIdempotent | services/reviewService.ts:39-45 | Repeating a single update with the same arguments later is the same as applying it once at the later time: only the timestamp moves. |
| ReviewService.ApplyBulkIdempotent | services/reviewService.ts:71-85 | Repeating a bulk update with the same arguments later is the same as applying it once at the later time. |
| ReviewService.BulkSkipsUnknownId | services/reviewService.ts:74-78 | A requested id no image has changes neither the stored images nor the result. |
| ReviewService.BulkOfOneIsSingle | services/reviewService.ts:58-96 | A bulk update of one found image is exactly the single update of that image. |
| ReviewService.DiscardFieldsOnlyWhenDiscarded | services/reviewService.ts:41-42 | After an update that found its image, the image has the new status and the fixed reviewer, with reason and comment present only for a discard. |
| SubmissionDetail.BulkStatus | components/archaeologist/SubmissionDetail.tsx:105 | The worthy mark writes worthy of review; anything else writes inconclusive. |
| SubmissionDetail.ClickSelection | components/archaeologist/SubmissionDetail.tsx:42-56 | A modifier click toggles only that id, appending it when absent. A plain click clears a selection of exactly that id and otherwise selects only it. |
| SubmissionDetail.RouteDiscard | components/archaeologist/SubmissionDetail.tsx:76-86 | A non-empty single target wins. Otherwise a non-empty selection is discarded, and an empty one leads nowhere. |
| SubmissionDetail.StoreAfterDiscard | components/archaeologist/SubmissionDetail.tsx:77-81 | A single target gets the single update, a selection the bulk update, and no target leaves the store as it was. |
| SubmissionDetail.Refreshed | components/archaeologist/SubmissionDetail.tsx:115-128 | The page reloads its submission from the store and, when the viewed image's id is still there, the first stored image with that id; otherwise the viewed image stays as it was. A submission gone from the store leaves the page unchanged, and no other field changes. |
| SubmissionDetail.SubmissionDetailPage.IsBulkDiscard | components/archaeologist/SubmissionDetail.tsx:239 | The discard dialog is in bulk mode exactly with no single target and more than one selected image. |
| SubmissionDetail.SubmissionDetailPage.DiscardCount | components/archaeologist/SubmissionDetail.tsx:240 | The dialog counts one image for a single target and otherwise the selection size. |
| SubmissionDetail.SubmissionDetailPage.ConfirmCount | components/archaeologist/SubmissionDetail.tsx:252-254 | The confirmation counts the snapshot's images, or none without a pending action. |
| SubmissionDetail.SubmissionDetailPage.constructor | components/archaeologist/SubmissionDetail.tsx:18-29 | The page starts with nothing selected, viewed or pending, no dialog open, and the given submission. |
| SubmissionDetail.SubmissionDetailPage.HandleImageClick | components/archaeologist/SubmissionDetail.tsx:42-56 | Only the selection changes, by the click rule. |
| SubmissionDetail.SubmissionDetailPage.HandleViewImage | components/archaeologist/SubmissionDetail.tsx:59-61 | Only the viewed image changes. |
| SubmissionDetail.SubmissionDetailPage.HandleCloseViewer | components/archaeologist/SubmissionDetail.tsx:230 | Only the viewed image is cleared. |
| SubmissionDetail.SubmissionDetailPage.HandleClearSelection | components/archaeologist/SubmissionDetail.tsx:222 | Only the selection is cleared. |
| SubmissionDetail.SubmissionDetailPage.RefreshSubmission | components/archaeologist/SubmissionDetail.tsx:115-128 | The page state becomes its refresh against the store. |
| SubmissionDetail.SubmissionDetailPage.HandleStatusChange | components/archaeologist/SubmissionDetail.tsx:64-67 | The store gets the single update without reason or comment, then the page refreshes. |
| SubmissionDetail.SubmissionDetailPage.HandleDiscardSingle | components/archaeologist/SubmissionDetail.tsx:70-73 | The image becomes the single target and the discard dialog opens; nothing else changes. |
| SubmissionDetail.SubmissionDetailPage.HandleConfirmDiscard | components/archaeologist/SubmissionDetail.tsx:76-86 | The store gets the routed discard. The selection is cleared only when it was the target, the single target is forgotten, the dialog closes and the page refreshes. |
| SubmissionDetail.SubmissionDetailPage.HandleBulkMark | components/archaeologist/SubmissionDetail.tsx:89-97 | The pending action snapshots the current selection and the confirmation opens. |
| SubmissionDetail.SubmissionDetailPage.HandleBulkDiscard | components/archaeologist/SubmissionDetail.tsx:99-101 | Only the discard dialog opens. |
| SubmissionDetail.SubmissionDetailPage.HandleConfirmBulkAction | components/archaeologist/SubmissionDetail.tsx:103-112 | With nothing pending nothing changes. Otherwise the store gets the bulk mark on the snapshot, selection and pending action are cleared, the dialog closes and the page refreshes. |
| SubmissionDetail.SubmissionDetailPage.HandleCancelDiscard | components/archaeologist/SubmissionDetail.tsx:242-245 | The discard dialog closes and the single target is forgotten. |
| SubmissionDetail.SubmissionDetailPage.HandleCancelConfirm | components/archaeologist/SubmissionDetail.tsx:257-260 | The confirmation closes and the pending action is dropped. |
| SubmissionDetail.SubmissionDetailPage.HandleNavigateImage | components/archaeologist/SubmissionDetail.tsx:131-136 | The viewed image becomes the page's image with that id, or stays as it was when there is none. |
| SubmissionDetail.ModifierClickTwiceRestores | components/archaeologist/SubmissionDetail.tsx:43-48 | Two modifier clicks on an unselected image give the selection back exactly. |
| SubmissionDetail.ModifierClickRemovesInOrder | components/archaeologist/SubmissionDetail.tsx:45-47 | A modifier click on a selected image removes it and keeps the rest in order. |
| SubmissionDetail.PlainClickTwice | components/archaeologist/SubmissionDetail.tsx:50-54 | Two plain clicks on an image clear the selection, except when it started as exactly that image. |
| SubmissionDetail.RefreshIdempotent | components/archaeologist/SubmissionDetail.tsx:115-128 | Refreshing twice against the same store is refreshing once. |
| SubmissionDetail.SingleTargetWins | components/archaeologist/SubmissionDetail.tsx:77-79 | With a single target the store gets only that image's update, whatever is selected. |
| ImageDetailModal.CurrentIndex | components/archaeologist/ImageDetailModal.tsx:34 | The first position of the shown image's id, or -1 with no image or an id not in the list. |
| ImageDetailModal.HasPrev | components/archaeologist/ImageDetailModal.tsx:35 | When a previous image is offered, its position is in the list. An image not in the list has no previous image. |
| ImageDetailModal.HasNext | components/archaeologist/ImageDetailModal.tsx:36 | For a listed image, a next image is offered exactly when it is inside the list. An image not in the list has a next image whenever the list is not empty. |
| ImageDetailModal.PrevTarget | components/archaeologist/ImageDetailModal.tsx:38-42 | A previous image is offered exactly when the index is above zero, and it is the one just before. |
| ImageDetailModal.NextTarget | components/archaeologist/ImageDetailModal.tsx:44-48 | A next image is offered exactly when the index is below the last position, and it is the one just after. |
| ImageDetailModal.KeyDown | components/archaeologist/ImageDetailModal.tsx:51-61 | Keys are ignored while closed. Escape closes, the left arrow goes to the previous image, the right arrow to the next, and other keys do nothing. |
| ImageDetailModal.Press | components/archaeologist/ImageDetailModal.tsx:257-301 | A button does nothing exactly when the image already has its status. Otherwise discard asks for the dialog and the others ask for a change to a status the image does not have. |
| ImageDetailModal.ActionDisabled | components/archaeologist/ImageDetailModal.tsx:259-301 | A disabled button implies the image is not at pending review, since no button leads to that status. |
| ImageDetailModal.ShowsDiscardDetails | components/archaeologist/ImageDetailModal.tsx:237 | The discard box shows only for an image whose review data records the discarded status. |
| ImageDetailModal.ShowsDiscardComment | components/archaeologist/ImageDetailModal.tsx:244 | The comment line shows only inside the discard box, and only for a non-empty comment. |
| ImageDetailModal.DiscardDetailsAfterReview | components/archaeologist/ImageDetailModal.tsx:236-250 | After a review is recorded, the discard box shows exactly when the status is discarded with a reason. Its comment line shows exactly when a non-empty comment came too. Any other status hides both. |
| ImageDetailModal.Band | components/archaeologist/ImageDetailModal.tsx:174-175 | The confidence bar is high above 70, medium above 40 up to 70, and low otherwise. |
| ImageDetailModal.AnalysisControl.constructor | components/archaeologist/ImageDetailModal.tsx:33 | The dialog starts with no analysis running. |
| ImageDetailModal.AnalysisControl.StartAnalysis | components/archaeologist/ImageDetailModal.tsx:216-217 | The busy flag is raised before the analysis runs. |
| ImageDetailModal.AnalysisControl.FinishAnalysis | components/archaeologist/ImageDetailModal.tsx:218-222 | The busy flag drops whether the analysis succeeded or failed. |
| ImageDetailModal.UnknownImageNextIsFirst | components/archaeologist/ImageDetailModal.tsx:34-36 | With no shown image or an unknown id, previous is off, while next lands on the first image of a non-empty list. |
| ImageDetailModal.NextThenPrev | components/archaeologist/ImageDetailModal.tsx:38-48 | With distinct ids, next from one image and previous from the following one are inverse steps. |
| ImageDetailModal.EndsStop | components/archaeologist/ImageDetailModal.tsx:35-36 | With distinct ids there is no previous from the first image and no next from the last. |
| ImageDetailModal.DisplayedStatusDefault | components/archaeologist/ImageDetailModal.tsx:70 | The shown status is pending review without review data, and otherwise the recorded status. |
| ImageDetailModal.ExactlyOneDisabledUnlessPending | components/archaeologist/ImageDetailModal.tsx:259-301 | A pending image has every button enabled, and any other image has exactly one disabled button. |
| DiscardModal.TruncateComment | components/archaeologist/DiscardModal.tsx:109 | The kept text is a prefix of at most 500 characters. It is the whole text exactly when that fits, and otherwise exactly 500 characters. |
| DiscardModal.CommentArgument | components/archaeologist/DiscardModal.tsx:32 | The comment passed on is the trimmed text, absent exactly when trimming leaves nothing. |
| DiscardModal.SelectionLabel | components/archaeologist/DiscardModal.tsx:66 | The singular label is used exactly for a count of one. |
| DiscardModal.DiscardModalState.ConfirmDisabled | components/archaeologist/DiscardModal.tsx:128 | Confirm is disabled exactly while no reason is selected. |
| DiscardModal.DiscardModalState.constructor | components/archaeologist/DiscardModal.tsx:27-28 | The dialog starts with no reason and an empty comment. |
| DiscardModal.DiscardModalState.SelectReason | components/archaeologist/DiscardModal.tsx:77 | Picking a reason highlights it and keeps the comment. |
| DiscardModal.DiscardModalState.ChangeComment | components/archaeologist/DiscardModal.tsx:109 | Typing stores the truncated text, which never exceeds 500 characters, and keeps the reason. |
| DiscardModal.DiscardModalState.HandleConfirm | components/archaeologist/DiscardModal.tsx:30-37 | Without a reason nothing is reported or changed. With one, the reason and the trimmed comment are reported and the dialog resets. |
| DiscardModal.DiscardModalState.HandleCancel | components/archaeologist/DiscardModal.tsx:39-43 | The dialog always resets and reports the cancel. |
| DiscardModal.OffersEveryReasonOnce | components/archaeologist/DiscardModal.tsx:12-18 | The dialog offers exactly the five discard reasons, each once. |
| DiscardModal.TruncateIdempotent | components/archaeologist/DiscardModal.tsx:109 | Truncating a truncated comment changes nothing. |
| DiscardModal.CommentArgumentBounded | components/archaeologist/DiscardModal.tsx:32 | The comment passed on is no longer than the text and has no white space at either end. |
| DiscardModal.BlankCommentIsAbsent | components/archaeologist/DiscardModal.tsx:32 | A comment of white space only is passed on as absent. |
| DiscardModal.CommentArgumentStable | components/archaeologist/DiscardModal.tsx:32 | Trimming the passed-on comment again changes nothing. |
| PilotEditor.SelectedImages | App.tsx:475 | The selected images are exactly the list's images whose ids are selected. |
| PilotEditor.ToggledSelection | App.tsx:356-364 | In multi mode only that id's membership flips, appending it when absent; in single mode the selection is exactly that id. |
| PilotEditor.Updated | App.tsx:366-394 | A form edit sets exactly one metadata field and keeps the others. |
| PilotEditor.UpdateSelected | App.tsx:366-394 | Selected images get the edited field, the other images are unchanged, and length and id order are kept. |
| PilotEditor.CommonValue | App.tsx:479-485 | The shown value is blank with nothing selected or when the selected images differ, and otherwise their shared value. |
| PilotEditor.CommonCoordinate | App.tsx:487-492 | The shown latitude or longitude is the selected images' shared value, or blank when nothing is selected or the values differ. |
| PilotEditor.NumberOrZero | App.tsx:780 | A shared number reads back as itself and a blank reads as zero. |
| PilotEditor.RemainingImages | App.tsx:445 | The images left are exactly those without the id; nothing is removed exactly when no image has it. |
| PilotEditor.SelectionAfterDelete | App.tsx:455-465 | The deleted id leaves the selection and every other selected id stays. When the deleted image was the only one selected, the first remaining image is selected instead, if any. |
| PilotEditor.ApplyAnalyses | App.tsx:401-419 | The analysis loop keeps the list's length and its ids in order. |
| PilotEditor.PilotApp.constructor | App.tsx:261-267 | A fresh editor is on the upload screen with no images, selection, search or busy flags. |
| PilotEditor.PilotApp.HandleFileUpload | App.tsx:313-354 | Without a file list nothing changes. Otherwise the new images follow the existing ones. From the upload screen the editor opens with the first new image selected, and uploading ends. |
| PilotEditor.PilotApp.ToggleSelection | App.tsx:356-364 | Only the selection changes, by the toggle rule. |
| PilotEditor.PilotApp.UpdateMetadata | App.tsx:366-394 | Only the images change: the selected ones get the edited field. |
| PilotEditor.PilotApp.EditLatitude | App.tsx:778-782 | An unparsable entry changes nothing. A number is written as the selected images' latitude, together with their common longitude, or zero when those differ. |
| PilotEditor.PilotApp.EditLongitude | App.tsx:792-796 | An unparsable entry changes nothing. A number is written as the selected images' longitude, together with their common latitude, or zero when those differ. |
| PilotEditor.PilotApp.RunAIAnalysis | App.tsx:396-421 | Behind its button, which is off while busy or with nothing selected, the images become the analysis loop over the selected images in list order, and nothing else changes. |
| PilotEditor.PilotApp.HandleReset | App.tsx:432-440 | Images, selection and search are emptied, the busy flag drops and the upload screen shows. |
| PilotEditor.PilotApp.HandleDeleteImage | App.tsx:442-466 | Every image with the id is removed and the selection is fixed by the deletion rule. The upload screen shows when no image is left. |
| PilotEditor.PilotApp.HandleSubmit | App.tsx:423-430 | Behind its button, which needs every image located, exactly one submission is created in front of the store from the normalised images, in review, and the success screen shows. When a conversion rejects the creation, the rejection is not caught and nothing changes. With the button off, nothing changes either. |
| PilotEditor.CommonValueIff | App.tsx:479-485 | A non-blank value is shown exactly when something is selected and every selected image has it. |
| PilotEditor.CommonValueAfterUpdate | App.tsx:366-379 | After an edit with something selected, the form shows the value just written. |
| PilotEditor.UpdatedImageHasValue | App.tsx:366-379 | Every selected image of the edited list carries the value just written. |
| PilotEditor.LocatingAllMakesValid | App.tsx:469-472 | Setting a non-zero location on every image of a non-empty list makes the submission valid. |
| PilotEditor.AreAllImagesValid | App.tsx:469-472 | The submission is valid exactly when the list is not empty and every image in it has a non-zero latitude and longitude. |
| PilotEditor.OneUnlocatedBlocks | App.tsx:469-472 | One image at latitude or longitude zero keeps the list invalid, and so does an empty list. |
| PilotEditor.LatitudeEditZeroesMixedLongitudes | App.tsx:778-782 | Editing the latitude of a selection whose longitudes differ writes longitude zero on every selected image, which makes the list invalid. |
| PilotEditor.RemainingKeepsOrder | App.tsx:445 | Deletion distributes over concatenation, so the other images keep their order. |
| PilotEditor.DeleteOnlySelectedSelectsFirst | App.tsx:455-465 | Deleting the only selected image selects the first image that is left. |
| PilotEditor.AnalysesClosedForm | App.tsx:396-421 | With distinct ids, each selected image carries its own successful result, and every other image and every failed analysis is left as it was. |
| PilotEditor.AnalysisStepExtends | App.tsx:410-413 | Analysing the next selected image in list order extends the analysed prefix by that image. |
| PilotEditor.ApplyAnalysesSnoc | App.tsx:403-419 | The loop over one more image is the loop over the earlier ones followed by one step. |
| ExifService.ConvertDMSToDD | services/exifService.ts:7-14 | A missing list or fewer than three components gives 0. Otherwise the result is degrees plus minutes/60 plus seconds/3600, negated exactly for "S" and "W". |
| ExifService.HemisphereMirror | services/exifService.ts:10-12 | South is the negation of north and west the negation of east. |
| ExifService.SignFollowsReference | services/exifService.ts:10-12 | For non-negative components with a non-zero magnitude, the result is negative exactly for "S" and "W" and positive otherwise. |
| ExifService.ExtraComponentsIgnored | services/exifService.ts:9 | Only the first three components count. |
| ExifService.ParseExifDate | services/exifService.ts:17-29 | An empty stamp, or a first token without exactly three ':' fields, gives today. Otherwise the result is the three fields joined by '-'. |
| ExifService.ParseExifDateOfStamp | services/exifService.ts:21-26 | A stamp "Y:M:D", alone or followed by a space, becomes "Y-M-D", with no check on the fields' digits. |
| ExifService.StampDateExample | services/exifService.ts:17-29 | "2024:07:24 14:32:15" gives the date "2024-07-24". |
| ExifService.NoColonFallsBack | services/exifService.ts:28 | A stamp without ':' falls back to today. |
| ExifService.ParseExifDateRoundTrip | services/exifService.ts:21-26 | Splitting the parsed date at '-' gives the stamp's date fields back, when they hold no '-'. |
| ExifService.TimeToken | services/exifService.ts:89 | The second space-separated token is present exactly when the stamp has a space, and it contains no space. |
| ExifService.TimeOf | services/exifService.ts:89-93 | Without a non-empty time token the current time is kept. Otherwise the time is a single ':'-joined token without spaces. |
| ExifService.TimeOfStamp | services/exifService.ts:89-93 | "date h:m:s" gives the time "h:m". |
| ExifService.StampTimeExample | services/exifService.ts:89-93 | "2024:07:24 14:32:15" gives the time "14:32". |
| ExifService.TimeWithoutMinutes | services/exifService.ts:91-92 | A time token without ':' gives its hour followed by ":undefined", as the template literal renders a missing field. |
| ExifService.NoTimeTokenKeepsCurrent | services/exifService.ts:90 | A stamp with no space keeps the current time. |
| ExifService.OrEmpty | services/exifService.ts:97-98 | A present non-empty tag is kept, and anything else becomes the empty string. |
| ExifService.DroneModelOf | services/exifService.ts:97-109 | The drone name is never empty. It is "Sconosciuto" when neither tag is given or when make and model trim to nothing, and otherwise make and model joined by a space and trimmed. |
| ExifService.MakeAlone | services/exifService.ts:99-101 | A trimmed make alone is taken as it is. |
| ExifService.ModelAlone | services/exifService.ts:99-101 | A trimmed model alone is taken as it is. |
| ExifService.MakeAndModel | services/exifService.ts:99-101 | A trimmed make and a trimmed model are joined by exactly one space. |
| ExifService.DroneNameTrimmed | services/exifService.ts:97-109 | The drone name never starts or ends with white space. |
| ExifService.BlankNamesAreUnknown | services/exifService.ts:99-109 | Make and model of white space only give "Sconosciuto". |
| ExifService.DefaultMetadata | services/exifService.ts:33-39 | The fallback metadata is today, now, the origin, altitude zero and "Sconosciuto". |
| ExifService.Round | services/exifService.ts:80 | The rounded altitude is an integer within half a unit of the input. |
| ExifService.Stamp | services/exifService.ts:85 | The original stamp when it is present and non-empty, otherwise the plain date-time tag. |
| ExifService.CoordinateOf | services/exifService.ts:71-76 | A coordinate is converted only when both its list and a non-empty reference are given, and is 0 otherwise. |
| ExifService.MetadataFromTags | services/exifService.ts:69-110 | Each metadata field follows from its own tags and falls back on its own default. |
| ExifService.ExtractExifMetadata | services/exifService.ts:31-118 | An unavailable library or reader, or an empty answer, gives the fallback metadata. Otherwise the locals, overwritten tag by tag, end as the metadata the tags describe. |
| ExifService.EmptyTagsAreDefault | services/exifService.ts:69-110 | An answer with no tags gives the same metadata as no library at all. |
| ExifService.DateTimeFallback | services/exifService.ts:85 | With the original stamp missing or empty, date and time come from the plain date-time tag. |
| ExifService.MissingReferenceIsZero | services/exifService.ts:71-76 | Coordinates without references are read as the origin, whatever their components. |

## Left out

- Browser storage and JSON are left out: loading, saving, parse failures and the editor's restore and autosave. The store is a sequence field that the operations read and assign.
- The blob-to-base64 conversion (`fetch`, `FileReader`) is a parameter, `convert`. It says whether the URL converted, the fetch failed, or the FileReader failed.
- The geocoding service's centroid and area name are parameters of `CreateSubmission` and `HandleSubmit`. Their floating-point arithmetic is not part of this model.
- The AI analysis and the network behind it are a function parameter. `None` stands for a thrown error. The reading of the file as base64 before the call is folded into that function.
- Map components, presentational components, JSX styling and locale date formatting are not modelled.
- `Date.now`, `new Date()`, `crypto.randomUUID`, `URL.createObjectURL` and `Math.random` are not modelled. Their values come in as parameters: timestamps, ids, "today", "now" and the submitter-name pick.
- The EXIF library, its callback and its 3-second timeout are left out. Their possible outcomes are the values of `ExifRead`. `Unavailable` covers the missing library, the timeout and a thrown error.
- ExtractExifMetadata: the altitude is modelled as a number, so the conversion of a numerator/denominator object through `Number` and its NaN check are not captured.
- Floating-point numbers are modelled as reals. `parseFloat` is modelled as an optional number, so rounding and NaN propagation are not captured.
- String lengths, `slice` and `trim` work on characters, not UTF-16 code units. `trim` uses JavaScript's white-space and line-terminator characters, but a character outside the Basic Multilingual Plane counts as one where JavaScript counts two. The 500-character bound therefore counts characters.
- The uploaded `File`, its MIME type and the preview URL's lifetime are not part of the image value.
- `getSubmissions` reads the store field and `saveSubmissions` assigns it, so their round trip is the identity.
- The `onUpdate` callbacks to parent components, the dashboard's own copy of the submissions and the archaeologist's view switch are left out.
- React's batched, asynchronous state updates are modelled as sequential assignments. Each handler runs to completion before the next event, so no two handlers interleave.
- PilotEditor.PilotApp.RunAIAnalysis: it runs as one step. The source copies `images` before its awaits and writes the copy back after them (App.tsx:401, 419), so an edit made to the images while an analysis is awaited is overwritten. The model has no interleaving and does not capture that loss.
- SubmissionService.Store.CreateSubmission: it runs as one step. The source reads the store before awaiting the URL conversions and saves that copy with the new record in front (services/submissionService.ts:88, 121-122), so a change saved meanwhile is overwritten. The model does not capture that loss.
- `getCommonValue('coordinates')` compares objects by reference. Only the scalar fields and `getCommonCoordinate` are modelled.
- SubmissionService.SubmissionPatch: an explicit `undefined` in a `Partial<Submission>` is modelled as an absent field, which the spread would instead copy.
- HandleFileUpload: the concurrent per-file extraction and the error alert are left out. The images arrive already extracted. A failed upload, for instance a throw from `crypto.randomUUID` or `URL.createObjectURL`, ends in the `catch` and the `finally` (App.tsx:345-349), which leave the state as it was with `isUploading` false. From an idle editor that is what `HandleFileUpload(None)` gives. From an editor already uploading, the model keeps `isUploading` true where the source clears it.
- ExifService.TimeOfStamp: it requires the seconds field to hold no ':'. The lemma gives the time of a well-formed "date h:m:s" stamp, not of every stamp.
