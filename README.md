# Artisan marketplace storefront — a Dafny model of its client-side logic

The storefront is a React front end for a marketplace of art works, crafts,
physical products and NFTs, backed by a remote canister. This project models
the logic that sits in that front end and proves properties of it.

- **Batch upload** (`Upload`). Selecting files creates one upload item per
  file. Each item moves pending → uploading → success or error through fixed
  progress checkpoints. "Upload all" walks the list in order and counts
  successes and failures. A failed item can be retried on its own. The page
  is a class whose item list is a field every step reassigns. The backend is
  an `Actor` whose replies come from an oracle over its call log, so a
  retry can get a different answer from the first attempt.
- **Create-item sequence and error messages** (`Queries`). The create-item
  mutation calls `createItem`, then `saveItemImage` with the returned id,
  then `createNft` for NFT items, and stops at the first rejection. Backend
  failures become user messages by keyword matching with a fixed
  precedence. The module also covers the enable rules of the queries.
- **Media signature detection** (`FilePreview`). The first four bytes of a
  blob are written as lower-case hex and matched against known prefixes.
- **Batch processing and file reading** (`FileProcessing`).
- **Page rules**:
  - the sold/active split and the sales total of an artist page (`ArtistPage`);
  - the category and availability filters of the browse page (`Browse`);
  - the four faces of the purchase button (`PurchaseButton`);
  - which navigation links a caller sees (`Navigation`);
  - the two profile forms (`ProfileForm`, `ProfileSetup`, `EditProfile`).

`Wrappers`, `Text` (substring search, ASCII lower-casing, `trim`) and `Seqs`
(`Array.prototype.filter` and its laws) are support modules. `Backend` mirrors
the types of `backend.d.ts`.

Where the code and its description disagree, the model follows the code:

- A successful upload does not clear an error message stored by an earlier
  failed attempt. The success patch sets only `status` and `progress`.
  `AttemptCheckpoints` states that the stored error is kept as it was.
- The profile-setup dialog opens only when the profile query's data is
  exactly `null`. Data that has not been loaded yet (`undefined`) keeps it
  closed.

An open point is recorded but not resolved. A retry runs the whole attempt
again, including `createItem`. An attempt that failed after `createItem` had
already been answered (for example in `saveItemImage`) therefore creates a
second listing on retry. `Upload.RetryResendsCreateItem` states this.

## Model

| member | source | states |
|---|---|---|
| Backend.ItemTypeNameInjective | src/frontend/src/backend.d.ts:37-42 | distinct item types have distinct enum strings, so comparing the strings compares the types |
| Backend.Actor.Invoke | src/frontend/src/backend.d.ts:53-68 | a backend call is appended to the call log and answered by the oracle on the log as it stood before the call |
| Text.Includes | src/frontend/src/hooks/useQueries.ts:140-142 | `includes` holds exactly when the keyword occurs at some position of the message |
| Text.MissingCharNotContained | src/frontend/src/hooks/useQueries.ts:140-142 | a message that lacks one of a keyword's characters does not include the keyword |
| Text.ToLower | src/frontend/src/hooks/useQueries.ts:73 | lower-casing keeps the length and maps each character on its own: an upper-case ASCII letter to a lower-case one, every other character to itself |
| Text.ToLowerIdempotent | src/frontend/src/hooks/useQueries.ts:73 | lower-casing twice is lower-casing once |
| Text.TrimShape | src/frontend/src/components/ProfileSetupModal.tsx:52-53 | the trimmed text is the window of the input that starts right after its leading white space; it neither starts nor ends with white space, and everything cut off on either side was white space |
| Text.TrimEnds | src/frontend/src/components/ProfileSetupModal.tsx:52-53 | a non-empty trimmed text starts and ends with a character that is not white space |
| Text.TrimCut | src/frontend/src/components/ProfileSetupModal.tsx:52-53 | every character after the trimmed window was white space |
| Text.TrimEmptyIff | src/frontend/src/components/ProfileSetupModal.tsx:37 | `!name.trim()` holds exactly when the name is all white space |
| Text.TrimIdempotent | src/frontend/src/pages/EditProfilePage.tsx:72-76 | trimming twice is trimming once |
| Seqs.Filter | src/frontend/src/pages/ArtistProfilePage.tsx:42-48 | a filter keeps only elements that pass, keeps every element that passes, and is never longer than its input |
| Seqs.FilterIsSubsequence | src/frontend/src/pages/ArtistProfilePage.tsx:42-48 | a filter keeps the survivors in their original order |
| Seqs.FilterPartition | src/frontend/src/pages/ArtistProfilePage.tsx:42-48 | filtering by a predicate and by its negation splits the input: the lengths add up and the multisets add up to the input's |
| Seqs.FilterCompose | src/frontend/src/pages/BrowsePage.tsx:28-35 | filtering twice is filtering once by the conjunction |
| Seqs.FilterEmptyIff | src/frontend/src/pages/BrowsePage.tsx:87 | a filter's result is empty exactly when no element passes |
| FileProcessing.ReadOutcome | src/frontend/src/utils/fileProcessing.ts:9-27 | the read resolves with the bytes exactly when the reader loaded an ArrayBuffer; another result rejects with "Failed to read file as ArrayBuffer", a reader error with "File reading failed" |
| FileProcessing.BatchesFlatten | src/frontend/src/utils/fileProcessing.ts:44-45 | laid end to end, the batches give back the input |
| FileProcessing.BatchAt | src/frontend/src/utils/fileProcessing.ts:44-45 | batch k is the slice from k·batchSize up to min((k+1)·batchSize, n), so batches start at multiples of batchSize |
| FileProcessing.BatchSizes | src/frontend/src/utils/fileProcessing.ts:44-45 | every batch holds between 1 and batchSize items, and all but the last hold exactly batchSize |
| FileProcessing.BatchCount | src/frontend/src/utils/fileProcessing.ts:44 | the number of batches m is the ceiling of n / batchSize: none for empty input, otherwise (m−1)·batchSize < n ≤ m·batchSize |
| FileProcessing.ProcessBatch | src/frontend/src/utils/fileProcessing.ts:48-51 | processing one batch appends, in order, the processor's result for each item of the batch at its index in the whole list, and keeps the earlier results |
| FileProcessing.ProcessInBatches | src/frontend/src/utils/fileProcessing.ts:36-60 | with batchSize ≥ 1: one result per item, result k is the processor's result for item k at index k, the processor is called once per index in increasing order, batches are the slices above, and there is one delay of delayMs between consecutive batches and none after the last |
| FilePreview.HexByteDigits | src/frontend/src/components/FilePreview.tsx:21 | `toString(16)` padded to two characters is the high nibble's digit then the low nibble's |
| FilePreview.HexByteInjective | src/frontend/src/components/FilePreview.tsx:20-22 | different bytes give different digit pairs |
| FilePreview.Hex | src/frontend/src/components/FilePreview.tsx:20-22 | the hex form has two characters per byte |
| FilePreview.SignatureShape | src/frontend/src/components/FilePreview.tsx:20-22 | the hex form consists of lower-case hex digits only, two per byte |
| FilePreview.HexPrefix | src/frontend/src/components/FilePreview.tsx:28-53 | a hex signature starts with the hex form of a byte string exactly when the bytes start with that byte string |
| FilePreview.TableLiterals | src/frontend/src/components/FilePreview.tsx:28-53 | the eight hex literals the preview tests are the hex forms of the byte signatures of JPEG, PNG, GIF, RIFF/WebP, ID3, MPEG frame, Ogg and glTF |
| FilePreview.DetectAgreesWithTable | src/frontend/src/components/FilePreview.tsx:14-53 | the `startsWith` chain on the hex signature classifies every non-empty blob as the first byte signature it starts with, or as unknown/octet-stream when there is none |
| FilePreview.LeadingPairsDistinct | src/frontend/src/components/FilePreview.tsx:28-53 | every signature is at least two bytes long and no two signatures share their first two bytes |
| FilePreview.SignaturesDisjoint | src/frontend/src/components/FilePreview.tsx:28-53 | no recognised signature is a prefix of another |
| FilePreview.MatchDecides | src/frontend/src/components/FilePreview.tsx:28-53 | a blob that matches one signature matches no other, and that signature decides the result: the order of the tests does not matter |
| FilePreview.NoMatchUnknown | src/frontend/src/components/FilePreview.tsx:24-25 | a blob that matches no signature is unknown, application/octet-stream |
| FilePreview.EmptyUnknown | src/frontend/src/components/FilePreview.tsx:14-17 | a missing or empty blob is unknown |
| FilePreview.OneByteUnknown | src/frontend/src/components/FilePreview.tsx:28-53 | a one-byte blob is always unknown |
| FilePreview.FirstFourBytesDecide | src/frontend/src/components/FilePreview.tsx:20-22 | blobs that agree on their first four bytes are classified alike |
| FilePreview.ImageIffImageSignature | src/frontend/src/components/FilePreview.tsx:57-67 | an object URL is made exactly for blobs that start with one of the four image signatures |
| Queries.CallerProfileFlagsSound | src/frontend/src/hooks/useQueries.ts:35-39 | the caller-profile hook reports loading while the actor is fetched, reports fetched only with an actor, and otherwise passes its query's flags through |
| Queries.EnabledQueriesPassGuard | src/frontend/src/hooks/useQueries.ts:164-168 | the item, artist-profile and NFT-owner queries are enabled exactly when the actor is settled and their guard passes, that is, with an actor and a non-empty id; an enabled caller-profile query passes its guard (also lines 12-15, 31, 195-198, 223-226) |
| Queries.CreateItemTranslationPrecedence | src/frontend/src/hooks/useQueries.ts:139-146 | "Unauthorized" gives the permission message; otherwise "network" gives the network message; otherwise, or for a thrown value that is not an `Error`, the error is re-thrown unchanged |
| Queries.CreateItemTranslationCases | src/frontend/src/hooks/useQueries.ts:139-146 | the create-item tests are case-sensitive: "unauthorized" is re-thrown as it is, and "Unauthorized" wins over "network" |
| Queries.CreateItemSequence | src/frontend/src/hooks/useQueries.ts:114-147 | the calls made are a non-empty prefix of createItem, saveItemImage with the returned id, and createNft for NFT items; every call but the last was answered; the run succeeds exactly when the last call was answered, and then it made every call and returns the id; otherwise the last rejection, translated, is the error |
| Queries.NftMintedIffNft | src/frontend/src/hooks/useQueries.ts:127-129 | createNft is called only for NFT items, and a successful NFT run ends with createNft of the returned id |
| Queries.CreateItemMutation | src/frontend/src/hooks/useQueries.ts:104-147 | without an actor the mutation fails with "Actor not available" and calls nothing; with one, its result and the calls appended to the log are those of the create-item sequence |
| Queries.SaveProfileTranslationPrecedence | src/frontend/src/hooks/useQueries.ts:72-87 | on the lower-cased message the first matching group decides, one clause per branch: unauthorized/permission gives the permission message; with neither, network/fetch/connection gives the network message; with none of those, timeout gives the timeout message; with none of those six, actor gives the backend-connection message; with none of the seven keywords, the generic "Failed to create profile: …" wrapper, which a non-`Error` always gets |
| Queries.SaveProfileTranslationIgnoresCase | src/frontend/src/hooks/useQueries.ts:73 | two messages that agree once lower-cased are translated alike, except that the generic wrapper quotes each message as it was |
| Queries.SaveProfileTranslationCases | src/frontend/src/hooks/useQueries.ts:73-76 | an upper-case "UNAUTHORIZED" still gives the permission message |
| Queries.SaveProfileTimeoutCases | src/frontend/src/hooks/useQueries.ts:76-81 | "timeout" gives the timeout message, and so does "Actor call timeout": the timeout test comes before the actor test |
| Queries.SaveProfileNeverHidesFailure | src/frontend/src/hooks/useQueries.ts:47-88 | the save succeeds exactly when there is an actor and the backend answered; every failure throws an `Error` |
| Queries.SaveCallerUserProfile | src/frontend/src/hooks/useQueries.ts:47-88 | without an actor the save fails at once and calls nothing; with one it makes exactly one saveCallerUserProfile call and fails, translated, on rejection |
| Upload.UploadLinkIffAllowed | src/frontend/src/pages/UploadPage.tsx:50-71 | the upload page admits exactly the callers to whom the navigation bar offers the upload link: signed in, with a profile that says artist |
| Upload.ApplyAllSnoc | src/frontend/src/pages/UploadPage.tsx:90-94 | applying one more update applies it on top of the earlier ones |
| Upload.ApplyAllKeepsListing | src/frontend/src/pages/UploadPage.tsx:96-139 | the status and progress updates of an attempt never change the title, description, price, type or file, and they keep the stored error unless they set one |
| Upload.ExtensionFrom | src/frontend/src/pages/UploadPage.tsx:79 | the scan finds the position where `\.[^/.]+$` matches, or reports that there is none |
| Upload.ExtensionUnique | src/frontend/src/pages/UploadPage.tsx:79 | the pattern can match at one position at most |
| Upload.DefaultTitle | src/frontend/src/pages/UploadPage.tsx:79 | the default title is the name cut at the position where the pattern matches, or the whole name when it matches nowhere |
| Upload.DefaultTitleAt | src/frontend/src/pages/UploadPage.tsx:79 | the title drops exactly the extension the pattern finds |
| Upload.DefaultTitleShape | src/frontend/src/pages/UploadPage.tsx:79 | the title is a prefix of the name; it is the whole name exactly when there is no extension, and otherwise it ends where the extension's dot stood |
| Upload.DefaultTitleExamples | src/frontend/src/pages/UploadPage.tsx:79 | "art.png" → "art", "a.tar.gz" → "a.tar", ".png" → "", while "v.1/x" and "x." are kept whole |
| Upload.InitialItems | src/frontend/src/pages/UploadPage.tsx:73-88 | one item per selected file, in selection order, each with the file's default title, an empty description, price "10.00", type digitalArt, status pending, progress 0 and no error |
| Upload.UpdateItem | src/frontend/src/pages/UploadPage.tsx:90-94 | `updateItem` replaces only the item at the index, which takes the update; an index out of range changes nothing |
| Upload.UpdatesCommute | src/frontend/src/pages/UploadPage.tsx:90-94 | updates at two different positions do not interfere |
| Upload.AttemptPatches | src/frontend/src/pages/UploadPage.tsx:96-139 | an attempt starts at uploading/10, passes 20 only when the price passed its check and 40 only when the file's read gave bytes, and ends with success/100 when it resolves or with error/0 and the message when it re-throws |
| Upload.AttemptCheckpoints | src/frontend/src/pages/UploadPage.tsx:96-139 | after an attempt the listing is untouched and the item is either success/100, with the stored error as it was, or error/0 with the failure's message, "Upload failed" for a non-`Error` |
| Upload.InvalidPriceFailsEarly | src/frontend/src/pages/UploadPage.tsx:103-106 | a price that rounds to `NaN`, to a number that is not positive, or to `-Infinity` fails the item with "Invalid price" before the file is read and before any backend call |
| Upload.AttemptSucceedsIff | src/frontend/src/pages/UploadPage.tsx:103-126 | an attempt resolves exactly when the price is a positive whole number of cents, the file reads as bytes and the create-item mutation resolves; it calls the backend only for such a price, and its first call is createItem with the item's title, description, type and the price in cents |
| Upload.InfinitePriceFailsUncalled | src/frontend/src/pages/UploadPage.tsx:103-126 | a price that rounds to `Infinity` passes the check and the file is read, but no backend call is made and the item fails; when the read gave bytes it passed 40 and `BigInt` threw its RangeError |
| Upload.RetryResendsCreateItem | src/frontend/src/pages/UploadPage.tsx:183-193 | when an attempt failed after createItem had been sent, a retry sends the very same createItem again (useQueries.ts:116) |
| Upload.CountIsFilterLength | src/frontend/src/pages/UploadPage.tsx:195-197 | each status count is the length of the filter on that status |
| Upload.CountPositiveIff | src/frontend/src/pages/UploadPage.tsx:195-197 | a count is positive exactly when some item has that status |
| Upload.CountSnoc | src/frontend/src/pages/UploadPage.tsx:195-197 | appending an item adds one to the count of its own status and nothing to the others |
| Upload.UploadAllEnabled | src/frontend/src/pages/UploadPage.tsx:251 | "upload all" is enabled exactly when nothing is uploading and some item is pending or failed |
| Upload.NoticeFor | src/frontend/src/pages/UploadPage.tsx:171-180 | the success toast is raised iff something succeeded and carries that count; navigation to my-items is scheduled iff something succeeded and nothing failed; the failure toast iff something failed, with that count |
| Upload.UnfinishedExactlyOnce | src/frontend/src/pages/UploadPage.tsx:148-167 | upload-all attempts every position whose item was not already successful, each exactly once and in increasing order, and skips the successful ones |
| Upload.UnfinishedBounds | src/frontend/src/pages/UploadPage.tsx:148-158 | every attempted position lies in the list and holds an item that had not succeeded |
| Upload.UnfinishedSorted | src/frontend/src/pages/UploadPage.tsx:148 | positions are attempted in strictly increasing order, so none twice |
| Upload.UnfinishedComplete | src/frontend/src/pages/UploadPage.tsx:148-158 | every position whose item had not succeeded is attempted |
| Upload.UnfinishedLength | src/frontend/src/pages/UploadPage.tsx:148-158 | the number of attempts is the number of items minus those already successful |
| Upload.TaggedSnoc | src/frontend/src/pages/UploadPage.tsx:90-94 | recording one more update at a position appends it to that position's log |
| Upload.UnfinishedStep | src/frontend/src/pages/UploadPage.tsx:148-158 | one turn of upload-all extends the attempt log by its position exactly when the item there was not already successful |
| Upload.WalkStep | src/frontend/src/pages/UploadPage.tsx:148-167 | one turn of upload-all keeps the loop invariant: earlier items settled, later items untouched, counts matching the settled prefix |
| Upload.WalkFrozen | src/frontend/src/pages/UploadPage.tsx:148-167 | later turns of upload-all leave an earlier turn's item alone and only add to the backend log; positions not yet reached are still as they were when the button was pressed |
| Upload.UploadAllItem | src/frontend/src/pages/UploadPage.tsx:148-167 | each item ends as upload-all leaves it: an already successful item unchanged and with no call made for it; any other item as its own attempt leaves it, that attempt running on the backend log as the earlier items left it, adding exactly its calls to the log, and ending in success exactly when the attempt resolved |
| Upload.UploadAllIdleWhenDone | src/frontend/src/pages/UploadPage.tsx:148-158 | when every item has already succeeded, upload-all changes no item and makes no backend call |
| Upload.UploadPage.HandleFileSelect | src/frontend/src/pages/UploadPage.tsx:73-88 | selecting files stores them and replaces the item list with one fresh item per file |
| Upload.UploadPage.UpdateItemAt | src/frontend/src/pages/UploadPage.tsx:90-94 | the list becomes `UpdateItem` of the old list and the update is recorded; nothing else changes |
| Upload.UploadPage.UploadSingleItem | src/frontend/src/pages/UploadPage.tsx:96-139 | an attempt on one position applies exactly the attempt's updates to that item and no other, makes exactly the attempt's backend calls, and returns its outcome |
| Upload.UploadPage.Visit | src/frontend/src/pages/UploadPage.tsx:148-165 | one turn of upload-all: an already successful item is counted and nothing changes, the backend included; any other item gets one attempt, which leaves it as the attempt says, appends exactly the attempt's calls to the log, and counts as a success exactly when the attempt resolved |
| Upload.UploadPage.HandleUploadAll | src/frontend/src/pages/UploadPage.tsx:141-181 | upload-all attempts exactly the items not already successful, in order; every item ends settled in success or error with its listing untouched and already successful items unchanged; the counts are the final success and error counts and add up to the number of items; the notice is the one for those counts; the final list and backend log are exactly those of `WalkTo`, the turn-by-turn specification the lemmas above are about |
| Upload.UploadPage.HandleRetryItem | src/frontend/src/pages/UploadPage.tsx:183-193 | a retry does nothing, and raises no toast, unless the item failed; a failed item gets one more full attempt, only that item changes, and the toast is "Successfully uploaded <title>!" when it resolved or "Failed to upload <title>" when it failed |
| PurchaseButton.Decide | src/frontend/src/components/PurchaseButton.tsx:16-56 | exactly one face shows: "Login to Purchase" iff signed out, "Your Item" iff the caller is the artist, "Sold Out" iff another caller views an item whose owner is not its artist, "Purchase Now" iff another caller views an unsold item |
| PurchaseButton.OwnershipIsArtistship | src/frontend/src/components/PurchaseButton.tsx:17-18 | for a sold item the buyer who owns it sees "Sold Out", the artist still sees "Your Item", and nobody can open the purchase modal |
| PurchaseButton.ModalReachableIff | src/frontend/src/components/PurchaseButton.tsx:45-56 | the purchase modal can be opened exactly by a signed-in caller who is not the artist, for an item its artist still owns |
| ArtistPage.ActiveAndSoldExact | src/frontend/src/pages/ArtistProfilePage.tsx:42-48 | active items are exactly the gallery items owned by their artist, sold items exactly the others, both in gallery order |
| ArtistPage.ActiveSoldPartition | src/frontend/src/pages/ArtistProfilePage.tsx:42-48 | active and sold items are disjoint and together hold every gallery item once: lengths and multisets add up |
| ArtistPage.TotalSalesConcat | src/frontend/src/pages/ArtistProfilePage.tsx:50 | the running sum of a concatenation is the sum of the running sums |
| ArtistPage.TotalSalesSplit | src/frontend/src/pages/ArtistProfilePage.tsx:42-50 | the gallery's prices split into the active items' and the sales total: every sold item counts once, no active item does |
| ArtistPage.NothingSoldNoSales | src/frontend/src/pages/ArtistProfilePage.tsx:42-50 | when every item still belongs to its artist, nothing is sold, the sales total is 0 and every item is active |
| ArtistPage.SoldSectionIff | src/frontend/src/pages/ArtistProfilePage.tsx:109 | the sold list is non-empty exactly when some gallery item is owned by someone other than its artist |
| ArtistPage.NoActiveNoteIff | src/frontend/src/pages/ArtistProfilePage.tsx:98-99 | the active list is empty exactly when no gallery item is still owned by its artist |
| ArtistPage.PageView | src/frontend/src/pages/ArtistProfilePage.tsx:16-109 | a spinner while loading, "Artist Not Found" without a profile, and otherwise the active and sold lists, their sales total, the no-active-listings note iff no item is unsold, and the sold section iff some item is sold |
| Browse.CategoryFilterExact | src/frontend/src/pages/BrowsePage.tsx:28-31 | "all" keeps the list as it is; a type tab keeps exactly the items of that type, in order |
| Browse.UnknownCategoryEmpty | src/frontend/src/pages/BrowsePage.tsx:28-31 | a tab value that is neither "all" nor a type keeps nothing |
| Browse.AvailableChain | src/frontend/src/pages/BrowsePage.tsx:28-35 | available ⊆ filtered ⊆ items, in order; available items are unsold; for a type tab, available is the single filter on type and unsold |
| Browse.ShowsEmptyState | src/frontend/src/pages/BrowsePage.tsx:87-103 | the empty state shows exactly when no item of the tab is for sale |
| Browse.NothingEverAvailable | src/frontend/src/pages/BrowsePage.tsx:18-26 | the items query answers with no items, so every tab shows the empty state |
| Navigation.FilterTable | src/frontend/src/components/Navigation.tsx:23 | filtering the five-link table keeps each shown link, in place |
| Navigation.OfferedLinksTable | src/frontend/src/components/Navigation.tsx:15-21 | the links a caller is offered are exactly the table's links whose `show` holds |
| Navigation.VisibleLinksExact | src/frontend/src/components/Navigation.tsx:15-23 | the visible links are Browse always, then Upload and My Items for a signed-in artist, then History and Profile for anyone signed in, in that order; a missing profile is not an artist |
| Navigation.SignedOutSeesBrowseOnly | src/frontend/src/components/Navigation.tsx:15-23 | a signed-out caller sees exactly Browse, and a signed-in non-artist sees three links |
| ProfileForm.SubmittedProfile | src/frontend/src/components/ProfileSetupModal.tsx:37-55 | nothing is sent exactly when the name is all white space; otherwise the sent profile is the trimmed name, the trimmed bio and the chosen artist flag, so its name is non-empty and neither name nor bio starts or ends with white space |
| ProfileForm.ResubmitIsIdentity | src/frontend/src/pages/EditProfilePage.tsx:27-33 | a profile the form sent, loaded back into a form and submitted unedited, is sent again unchanged |
| ProfileSetup.ShowProfileSetupIff | src/frontend/src/components/ProfileSetupModal.tsx:24 | the dialog opens exactly for a signed-in caller whose settled query found no profile; data not yet loaded, or a profile, keeps it closed |
| ProfileSetup.SetupErrorText | src/frontend/src/components/ProfileSetupModal.tsx:71 | a failed save shows the `Error`'s message, or "Failed to create profile. Please try again." for anything else |
| ProfileSetup.AfterSubmitShowsFailure | src/frontend/src/components/ProfileSetupModal.tsx:33-75 | after a submit the error shows exactly when a save was made and failed, and the toast repeats it; a success empties the form; a blank name or a failure keeps what was typed, so submitting again sends the same profile |
| ProfileSetup.ProfileSetupModal.OnVisibilityChange | src/frontend/src/components/ProfileSetupModal.tsx:27-31 | hiding the dialog clears the error and leaves the fields |
| ProfileSetup.ProfileSetupModal.HandleSubmit | src/frontend/src/components/ProfileSetupModal.tsx:33-75 | the error is cleared first; a blank name raises a toast and calls nothing; otherwise exactly one save of the trimmed profile is made and the form and toast are those of its outcome |
| EditProfile.PageView | src/frontend/src/pages/EditProfilePage.tsx:35-61 | signed-out callers are denied access before loading is looked at; a spinner while loading; the form otherwise |
| EditProfile.NavigatesIffSaved | src/frontend/src/pages/EditProfilePage.tsx:77-82 | the page goes to /browse exactly when the save succeeded, with the success toast; every failure shows the same fixed text |
| EditProfile.EditProfilePage.SyncFromProfile | src/frontend/src/pages/EditProfilePage.tsx:27-33 | a loaded profile is copied into the fields; with no profile the fields stay |
| EditProfile.EditProfilePage.HandleSubmit | src/frontend/src/pages/EditProfilePage.tsx:63-83 | a blank name raises a toast and calls nothing; otherwise exactly one save of the trimmed profile is made, and the toast and navigation are those of its outcome; the fields are not changed |

Definitions the rows above are stated about, and the source they model:

- `Queries.CallerProfileFlags`: useQueries.ts:35-39; `Queries.CallerProfileEnabled` and `Queries.ByIdEnabled`: the `enabled` options at useQueries.ts:31 and 164-168.
- `Queries.TranslateCreateItemError`: useQueries.ts:139-146; `Queries.CreateItemRun` and `Queries.CreateItemOutcome`: useQueries.ts:104-147.
- `Queries.TranslateSaveProfileError` and `Queries.SaveProfileResult`: useQueries.ts:47-88.
- `Upload.Attempt`, `Upload.AttemptPriced`, `Upload.AfterRead` and `Upload.Created`: UploadPage.tsx:96-139, the price check, the read, `BigInt` and the mutation in that order.
- `Upload.Unfinished` and `Upload.WalkTo`: the loop of UploadPage.tsx:148-167, with `Upload.AttemptWith` the attempt of one item on a given log; `Upload.CountStatus`: UploadPage.tsx:195-197; `Upload.RetryToast`: UploadPage.tsx:187-192.
- `FilePreview.Signature`, `FilePreview.ClassifySignature` and `FilePreview.Detect`: FilePreview.tsx:14-53.
- `ArtistPage.ActiveItems`, `ArtistPage.SoldItems` and `ArtistPage.TotalSales`: ArtistProfilePage.tsx:42-50.
- `Browse.FilteredItems` and `Browse.AvailableItems`: BrowsePage.tsx:28-35.
- `Navigation.NavLinks` and `Navigation.VisibleLinks`: Navigation.tsx:15-23.
- `ProfileSetup.ShowProfileSetup`: ProfileSetupModal.tsx:24; `ProfileSetup.AfterSubmit`: ProfileSetupModal.tsx:33-75.
- `EditProfile.SubmitOutcome`: EditProfilePage.tsx:63-83.
- `Text.Trim`: `String.prototype.trim`, used at ProfileSetupModal.tsx:37 and 52-53 and EditProfilePage.tsx:72-76.

## Left out

- Text.ToLower: lower-cases ASCII letters only. JavaScript's `toLowerCase` also folds non-ASCII letters, so a keyword written with such letters is not recognised by the model.
- Text.TrimShape: white space is a fixed set of characters (the ASCII blanks, no-break space, the Unicode space separators, line and paragraph separators, and the byte-order mark). It is meant to match what `String.prototype.trim` removes.
- ArtistPage.TotalSales: sums the bigint prices exactly. The page converts each price with `Number(...)`, which loses precision above 2^53. The display with `toFixed(2)` is also left out.
- Upload.Attempt: the price parser `Math.round(parseFloat(price) * 100)` is floating point. It is a parameter of the page that returns `NaN`, a whole number of cents, or an infinity; which strings give which is not modelled. The message `BigInt(Infinity)` throws is engine-specific; the model uses V8's text.
- Upload.UploadPage.HandleRetryItem: requires an index inside the list. The page only offers retry on items it lists, and an index outside the list would make `uploadItems[index].status` throw.
- FileProcessing.ProcessInBatches: requires a batch size of at least 1; with 0 the loop never advances. The processor is a pure function rather than an awaited promise, and a rejected processor call is not modelled. The delays are recorded as a list of waits, not as elapsed time. `yieldToUI` is left out.
- FileProcessing.ReadOutcome: the `FileReader` itself is abstract. Each file carries the event its read ends with.
- Timers and yields: the `yieldToUI` pauses in the upload page, the two-second delay before navigating to my-items, and the timing of React state updates.
- Concurrency: upload-all runs strictly in sequence on a snapshot of the list, with no edits or retries while it runs. The page disables those controls while uploading.
- Toasts, console logging, icons, layout and the mobile navigation sheet (it repeats the same visible links). Which toast is raised, and with what text or count, is modelled for upload-all, retry and the two profile forms; the toasts of sign-in and of the purchase modal go with those flows, which are left out below.
- React and react-query machinery: hooks, re-rendering, cache invalidation after mutations, and query retries. The page state is held in explicit fields instead.
- The backend canister: only its interface types and call/reply behaviour are modelled, as an oracle over the call log.
- Purchase flow: the purchase modal's fee arithmetic (floating point) and the purchase-history totals are left out, and so is the `showModal` toggle. The button's decision is modelled.
- Browse page: its loading spinner while the items query runs is left out. The items query itself is modelled and always answers with the empty list.
- Sign-in (the identity provider and login button), routing, and the presentation-only pages and components.
