# FineTrack in Dafny

FineTrack is a small offline-first web app for UK drivers. It records fines and penalty charges, shows
what is unpaid, overdue and due soon, and links to the government services that take payment.
This project models the app's core and proves properties of that model:

- **Persistence layer** (`src/services/storage.ts`):
  - the local service keeps every fine as one JSON array under one `localStorage` key;
  - the remote service is abstracted as a server whose every call may fail;
  - the hybrid service writes locally first and mirrors each mutation to the server, queueing it in a
    durable sync queue when offline or when the server call fails. `syncWithServer` replays that queue
    in order and keeps only the entries that failed;
  - the `createStorageService` mode switch.
- **The `useStorage` hook** (`src/hooks/useStorage.ts`): an in-memory copy of the list beside the
  store, with `loading` and `error` state.
- **App routing** (`src/App.tsx`):
  - URL parsing under `BASE_PATH`;
  - the path written for each view;
  - the in-app navigation history with `navigateTo` and `goBack`;
  - the update-prompt back-off;
  - the privacy gate.
- **Version comparison** of the privacy notice (`src/components/PrivacyNotice.tsx`).
- **The two feedback forms** (`ReportBug.tsx`, `SuggestFeature.tsx`), in one module:
  - the shared validators;
  - the fixed order of the submit checks;
  - the request payload;
  - the mapping from HTTP status to message.
- **The dashboard figures** (`Dashboard.tsx`), **fine construction** (`AddFine.tsx`) and the
  **links page** (`LinksPage.tsx`): its search, lookups, category cards and back button.

Files, one module each: `wrappers.dfy` (Option/Result/Outcome), `seqs.dfy` (filter, prefixes,
subsequences), `text.dfy` (JavaScript's `toLowerCase`, `trim`, `includes`, `split` and the
`\s` class, restricted to what the app uses), `fines.dfy` (the `Fine` record, patches, queue entries
and list transformations), `browser.dfy` (`localStorage`), `storage.dfy`, `use_storage.dfy`,
`routing.dfy`, `versions.dfy`, `validation.dfy`, `dashboard.dfy`, `add_fine.dfy` and `links.dfy`.

How the environment is modelled:

- `localStorage` is a class holding a map from key to parsed document. Each `setItem` call succeeds or
  throws (a full quota, storage disabled) independently of the others; a ghost log records every call,
  its document and its outcome.
- `navigator.onLine` is an `online` parameter of every call that reads it.
- `Date.now()`, generated ids, the user agent, the ISO timestamp and `parseFloat` are parameters.
- The server is a class holding the server's list and a ghost log of the calls it received, each with
  its outcome. A call's success is an unconstrained choice. A successful mutation does to the server's
  list what the local service does to its own.
- Amounts are integers (pence, say). Dates on the dashboard are instants in milliseconds, read by a
  `parse` function that gives `None` for an invalid date.

## Model

| member | source | states |
|---|---|---|
| Fines.WithId | src/hooks/useStorage.ts:34-37 | the new record carries the given id, and without its id it is exactly the form's record |
| Fines.WithIdStrip | src/hooks/useStorage.ts:34-37 | round trip: a fine's id-less part with its own id attached is the fine again |
| Fines.MergeNoChanges | src/services/storage.ts:50 | the empty patch `{}` leaves a fine unchanged |
| Fines.Merge | src/services/storage.ts:50 | `{ ...fine, ...updates }`: each field the patch holds replaces the fine's, the others are kept; its laws are the four `Merge` lemmas here |
| Fines.MergeOverlay | src/services/storage.ts:50 | applying two patches in turn equals applying their overlay once |
| Fines.MergeIdempotent | src/services/storage.ts:50 | applying the same patch twice equals applying it once |
| Fines.MergeId | src/services/storage.ts:50 | the patched fine keeps its id unless the patch names one, which then replaces it |
| Fines.FindIndex | src/services/storage.ts:44 | `findIndex` is -1 exactly when no fine has the id, and otherwise the first position holding it |
| Fines.RemoveIdFacts | src/services/storage.ts:58 | deleting leaves a subsequence of the list (order kept) that has no fine with the id but every fine with another id |
| Fines.RemoveId | src/services/storage.ts:58 | `fines.filter(f => f.id !== id)`; what it keeps is stated by `RemoveIdFacts` |
| Fines.RemoveAbsentId | src/services/storage.ts:56-60 | deleting an id that no fine has leaves the list exactly as it was |
| Fines.RemoveIdUnique | src/services/storage.ts:58 | deleting keeps ids unique |
| Fines.ReplaceWhereFirst | src/hooks/useStorage.ts:55-57 | the hook's `map` leaves the list unchanged when no fine has the id; with unique ids it replaces exactly the first match |
| Fines.ReplaceWhere | src/hooks/useStorage.ts:55-57 | `prev.map(fine => fine.id === id ? updatedFine : fine)`: the list keeps its length; `ReplaceWhereFirst` and `ReplaceWhereDuplicates` say which entries change |
| Fines.ReplaceWhereDuplicates | src/hooks/useStorage.ts:55-57 | when two fines share the id, the `map` also replaces the later one, while `findIndex` finds the earlier |
| Fines.ApplyOp | src/services/storage.ts:214-225 | what a replayed queue entry does on success: add appends the fine and keeps every earlier one; update keeps the length; delete leaves a subsequence without the id |
| Fines.ApplyUpdate | src/services/storage.ts:44-53 | an update changes only the first fine with the id, to that fine patched; every other position is unchanged |
| Fines.DecodeFines | src/services/storage.ts:18-19 | a stored list of fines decodes to itself |
| Fines.DecodeFinesEmpty | src/services/storage.ts:16-24 | an absent key or text that does not parse decodes to `[]`, so loading never throws; a stored queue also decodes to `[]` (see "Left out") |
| Fines.DecodeQueue | src/services/storage.ts:183-191 | a stored queue decodes to itself |
| Browser.LocalStorage.GetItem | src/services/storage.ts:18 | `getItem` returns a value exactly when the key is present, and that value is the key's |
| Browser.LocalStorage.SetItem | src/services/storage.ts:28 | each call is logged with its outcome; on success it sets that key and no other, and on failure it changes nothing |
| Storage.LocalStorageService.LoadFines | src/services/storage.ts:16-24 | the stored list when one is there; `[]` when the key is absent or its text does not parse (a stored queue: see "Left out") |
| Storage.LocalStorageService.SaveFines | src/services/storage.ts:26-33 | one write of the list, whose outcome is the result; on success the key holds exactly the given list; on failure `SaveFailed` and storage unchanged |
| Storage.LocalStorageService.AddFine | src/services/storage.ts:35-40 | the stored list becomes the old list with the fine appended, and the fine is returned; on a failed save nothing changes |
| Storage.LocalStorageService.UpdateFine | src/services/storage.ts:42-54 | an absent id gives `NotFound(id)` and no write; otherwise the first match is replaced by itself overlaid with the updates, all other positions keep their fines, and the merged fine is returned |
| Storage.LocalStorageService.DeleteFine | src/services/storage.ts:56-60 | the stored list becomes the fines whose id differs, in order; an absent id rewrites the same list and is not an error |
| Storage.DatabaseService.LoadFines | src/services/storage.ts:89-104 | the server's list, or `RemoteLoadFailed`; the call and its outcome are logged |
| Storage.DatabaseService.SaveFines | src/services/storage.ts:106-110 | bulk save always throws |
| Storage.DatabaseService.AddFine | src/services/storage.ts:112-129 | one call is logged; the server's list gains the fine exactly when the call was applied; success implies applied and echoes the fine; a failure (`RemoteAddFailed`) may still have been applied, because the reply body is read inside the `try` |
| Storage.DatabaseService.UpdateFine | src/services/storage.ts:131-148 | one call is logged; only an id the server holds can be applied, and an applied call patches its first match; success implies applied and returns the merged fine; a failure (`RemoteUpdateFailed`) may still have been applied |
| Storage.DatabaseService.DeleteFine | src/services/storage.ts:150-164 | on success the server drops the id; reading no reply body, a failure changes nothing |
| Storage.LostAddReplyDuplicates | src/services/storage.ts:122-128 | an add the server committed but whose reply failed is queued, and a successful replay of that queue leaves the fine on the server twice |
| Storage.FailedSnoc | src/services/storage.ts:211-230 | the failed entries of a call sequence extended by one call are the old failures followed by that call's failure, if any |
| Storage.ReplaySnoc | src/services/storage.ts:211-230 | the server's list after a call sequence extended by one call is one more step from the list after the sequence |
| Storage.FailedIsSubseq | src/services/storage.ts:211-232 | after a replay the new queue is a subsequence of the old one (failures keep their relative order) and is no longer |
| Storage.FailedExactly | src/services/storage.ts:211-232 | when every call succeeds the new queue is empty; when every call fails it is the whole old queue |
| Storage.SyncedEmpty | src/services/storage.ts:206-209 | replaying an empty queue makes no call and changes nothing |
| Storage.HybridStorageService.constructor | src/services/storage.ts:177-191 | the queue starts as the decoded stored queue, `[]` when absent or unparsable |
| Storage.HybridStorageService.SaveSyncQueue | src/services/storage.ts:193-199 | best effort: one write of the queue is attempted; it is stored only if that write succeeds, and a failure is not thrown |
| Storage.HybridStorageService.AddToSyncQueue | src/services/storage.ts:201-204 | the entry is appended to the queue, which is then saved |
| Storage.HybridStorageService.Send | src/services/storage.ts:214-229 | one entry is sent to the server and logged; a success was applied, and the server's list takes one step for the logged call (its change exactly when applied) |
| Storage.HybridStorageService.SendAll | src/services/storage.ts:211-230 | every entry is tried once, in order, whatever failed before; the result is exactly the failed entries in their original order, and the server has replayed the successful ones |
| Storage.HybridStorageService.SyncWithServer | src/services/storage.ts:206-234 | offline: no call and nothing changes; online: the replay above, then one attempt to save the new queue when the old one was non-empty |
| Storage.HybridStorageService.LoadFines | src/services/storage.ts:236-251 | online with a successful server load, one local save of the server's list is attempted; when it succeeds that list is returned; otherwise the local list is returned and local storage is unchanged |
| Storage.HybridStorageService.SaveFines | src/services/storage.ts:253-265 | the local write comes first and its outcome is the result; a failed local save throws before any server call; online, the queue is then replayed |
| Storage.HybridStorageService.Mirror | src/services/storage.ts:267-317 | after a local write: online, one server call, and the operation is queued exactly when that call failed; offline, no call and the operation is queued; a grown queue gets one write attempt, and an unchanged one none |
| Storage.HybridStorageService.AddFine | src/services/storage.ts:267-283 | the local write comes first and its outcome is the result; a failed local save throws with nothing queued and no server call; otherwise it mirrors, and a grown queue is written once, stored if that write succeeds and its previous entry kept if it fails |
| Storage.HybridStorageService.UpdateFine | src/services/storage.ts:285-301 | an id missing locally throws `NotFound` with nothing written, queued or sent; otherwise the local write's outcome is the result, then the mirroring with the queue's write as for adding |
| Storage.HybridStorageService.DeleteFine | src/services/storage.ts:303-317 | the local delete's write outcome is the result; a failed local save throws with nothing queued; then the mirroring with the queue's write as for adding |
| Storage.StorageService.constructor | src/services/storage.ts:325-342 | `createStorageService` for each mode: a local service, a remote, or a hybrid service over both |
| Storage.StorageService.IsOnline | src/services/storage.ts:62-64 | always false for the local service; `navigator.onLine` for the other two |
| Storage.StorageService.Current | src/services/storage.ts:3-10 | the list the selected service serves: the server's in database mode, the local one otherwise; the contracts of the forwarding methods are stated over it |
| Storage.StorageService.LoadFines | src/services/storage.ts:4 | success returns the list the selected service serves; only database mode can fail; only hybrid mode changes the local list |
| Storage.StorageService.SaveFines | src/services/storage.ts:5 | success makes the served list exactly the given one; database mode always fails; otherwise the local write's outcome is the result; failure changes nothing |
| Storage.StorageService.AddFine | src/services/storage.ts:6 | success returns the fine and appends it; outside database mode failure changes nothing and the result is the local write's outcome; in database mode a failure leaves the list as it was or with the fine appended |
| Storage.StorageService.UpdateFine | src/services/storage.ts:7 | success replaces the first match with it merged; outside database mode failure changes nothing, an absent id is `NotFound` and a present one succeeds exactly when the local write does; in database mode a failure leaves the list as it was or with the first match merged |
| Storage.StorageService.DeleteFine | src/services/storage.ts:8 | success removes every fine with the id; failure changes nothing; outside database mode the result is the local write's outcome |
| UseStorage.StorageHook.constructor | src/hooks/useStorage.ts:6-9 | no fines, loading, no error |
| UseStorage.StorageHook.LoadOnMount | src/hooks/useStorage.ts:12-28 | loading always ends false; on success the list is the service's, and on failure the list is kept and `error` holds the message |
| UseStorage.StorageHook.AddFine | src/hooks/useStorage.ts:31-48 | on success the fine with its new id is appended and `error` is cleared; on failure the list is unchanged and `error` is the message that is rethrown; the copy stays coherent with the store, except after a database-mode failure, where the store holds the copy or the copy with the fine appended |
| UseStorage.StorageHook.UpdateFine | src/hooks/useStorage.ts:51-65 | on success every entry with the id becomes the returned fine and no other entry changes; an id the coherent copy lacks fails; coherence is kept while ids are unique, except after a database-mode failure, where the store holds the copy or the copy with the first match merged |
| UseStorage.StorageHook.DeleteFine | src/hooks/useStorage.ts:68-79 | on success every entry with the id is removed, and only then; on failure the list is unchanged and `error` is set |
| UseStorage.StorageHook.SyncData | src/hooks/useStorage.ts:82-96 | without `syncWithServer` nothing changes; with it, offline, the queue and the server stay as they were; online, the queue is replayed as `SendAll` does and one load follows; the list becomes the service's and `error` ends cleared |
| UseStorage.StorageHook.ClearError | src/hooks/useStorage.ts:112 | `error` becomes null and nothing else changes |
| UseStorage.StorageHook.IsOnline | src/hooks/useStorage.ts:99-101 | forwards the service's `isOnline` |
| UseStorage.DuplicateIdsDiverge | src/hooks/useStorage.ts:55-57 | with two fines sharing an id, the hook's `map` and the store's single replacement give different lists |
| Text.Lower | src/App.tsx:223 | `toLowerCase` on ASCII letters, every other character kept |
| Text.Trim | src/components/ReportBug.tsx:91-93 | `trim`: the white space of JavaScript's `\s` class dropped at both ends |
| Text.Split | src/App.tsx:227 | `split` on one character: the pieces between the separators, in order, and always at least one |
| Versions.CompareVersions | src/components/PrivacyNotice.tsx:18-29 | the loop's result is the comparison `Compare`, which is -1, 0 or 1, and 0 when either version is null or empty |
| Versions.CompareRange | src/components/PrivacyNotice.tsx:22-28 | the comparison from any index is -1, 0 or 1 |
| Versions.CompareFromSign | src/components/PrivacyNotice.tsx:22-28 | the scan gives 0 exactly when all padded components agree; otherwise it gives the sign at the first component that differs |
| Versions.CompareFirstDifference | src/components/PrivacyNotice.tsx:22-27 | two versions compare by their first differing numeric component, scanning left to right |
| Versions.CompareReflexive | src/components/PrivacyNotice.tsx:18-29 | `compare(a, a) = 0` |
| Versions.CompareAntisymmetric | src/components/PrivacyNotice.tsx:18-29 | `compare(a, b) = -compare(b, a)` |
| Versions.PaddedEqual | src/components/PrivacyNotice.tsx:23-24 | versions whose components agree once missing ones count as 0 compare equal |
| Versions.OnePointZero | src/components/PrivacyNotice.tsx:23-24 | `"1.0"` and `"1.0.0"` compare equal |
| Versions.NonNumericIsZero | src/components/PrivacyNotice.tsx:20-24 | a non-numeric component counts as 0: `"1.x"` equals `"1.0"` |
| Versions.UpgradeDowngradeExclusive | src/components/PrivacyNotice.tsx:38-40 | `isUpgrade` and `isDowngrade` are never both true; both are false without `isUpdate`; swapping the versions swaps them |
| Versions.IsUpgrade | src/components/PrivacyNotice.tsx:39 | `isUpdate && versionChange > 0`; see `UpgradeDowngradeExclusive` |
| Versions.IsDowngrade | src/components/PrivacyNotice.tsx:40 | `isUpdate && versionChange < 0`; see `UpgradeDowngradeExclusive` |
| Versions.EffectiveVersion | src/components/PrivacyNotice.tsx:37 | the given version when non-empty, the app's own otherwise |
| Routing.BasePath | src/App.tsx:22-24 | `BASE_PATH` starts and ends with `/` |
| Routing.Encode | src/App.tsx:324 | `encodeURIComponent` never yields `/` and keeps non-empty text non-empty |
| Routing.PercentDecode | src/App.tsx:229 | `decodeURIComponent`: never longer than its input, and the identity on text without `%`; `None` where it throws |
| Routing.DecodeLowerEncode | src/App.tsx:229 | for ASCII text, decoding the lower-cased encoding gives the lower-cased text |
| Routing.StripBase | src/App.tsx:222 | a path starting with the base loses exactly that prefix; any other path is kept |
| Routing.StripSlash | src/App.tsx:223 | at most one leading `/` is removed |
| Routing.ViewOfKeyNotFound | src/App.tsx:235-248 | exactly the eight listed keys reach a page; every other key gives the 404 view, and none gives links |
| Routing.ParseRelative | src/App.tsx:226-248 | a non-links path maps by key; a path starting with `links` is the links view, with the decoded second segment as category exactly when that segment is non-empty; failure only where decoding throws |
| Routing.ParsePath | src/App.tsx:220-249 | `parsePath`: a category comes only with the links view, and any other view is the view map's entry for the relative path |
| Routing.LinksPrefixIsLinks | src/App.tsx:226-232 | any relative path beginning with `links` and having no further `/` (for instance `linksfoo`) opens the links view with no category |
| Routing.Truthy | src/App.tsx:311-312 | `category \|\| null`: a category exactly when one is given and non-empty |
| Routing.PathFor | src/App.tsx:319-329 | links with a category goes to `/links/<encoded>`, links without one to `/links`, an unmapped view to `/`; every path starts with `/` |
| Routing.TrimTrailingSlash | src/App.tsx:330 | removes one trailing `/`, if there is one |
| Routing.ParseUnderBase | src/App.tsx:220-223 | parsing a path under the base removes the base and one `/`, then lower-cases what is left before matching |
| Routing.ParseLinksCategory | src/App.tsx:226-230 | the path of a links category parses back to that category, lower-cased |
| Routing.PlainKeysParse | src/App.tsx:235-248 | each page's key parses to that page |
| Routing.GoBackToIsPathFor | src/App.tsx:399-407 | `goBack`'s map agrees with `navigateTo`'s for every view but 404 |
| Routing.PlainUnderBase | src/App.tsx:319-332 | any non-links page's path under the base parses back to that page |
| Routing.LinksCategoryUnderBase | src/App.tsx:319-332 | a links category's path under the base parses back to links with the category lower-cased |
| Routing.NavigateRoundTrip | src/App.tsx:319-332 | the URL `navigateTo` writes reloads the same view and, for links, the category lower-cased; 404 reloads as the dashboard |
| Routing.OmittedCategoryAlwaysDiffers | src/App.tsx:269-270 | navigating to links with no category argument counts as a different navigation, even from links itself |
| Routing.StampLast | src/App.tsx:277-285 | only the last history entry changes, and only by the recorded scroll position |
| Routing.Push | src/App.tsx:273-290 | exactly one entry is pushed, with scroll 0, after the stamped history |
| Routing.BackUndoesPush | src/App.tsx:386-394 | popping the pushed entry gives back the earlier destinations |
| Routing.GoBackTo | src/App.tsx:399-407 | `goBack`'s path starts with `/` and is `/` only for the dashboard |
| Routing.GoBackLeavesBase | src/App.tsx:407-411 | the URL `goBack` writes, without `BASE_PATH`, can fall outside the base |
| Routing.GoBackRoundTrip | src/App.tsx:399-411 | the corrected URL stays under the base and reloads the previous entry's view and category |
| Routing.AppState.constructor | src/App.tsx:251-258 | the first view and category are those parsed from the URL, and the history holds one entry for them |
| Routing.AppState.NavigateTo | src/App.tsx:267-336 | pushes one entry exactly for a non-replace, different navigation with a scroll container; sets the view and its category; pushes or replaces the written URL |
| Routing.AppState.GoBack | src/App.tsx:383-427 | with more than one entry it pops exactly one, shows the new last entry and replaces the URL with its path as written, without `BASE_PATH`; with one or none it changes nothing |
| Routing.NextDelay | src/App.tsx:617-621 | 2 days for counts 1 and 2, 7 days otherwise |
| Routing.NextDelayMonotone | src/App.tsx:617-621 | the delay never shrinks as the count grows |
| Routing.UpdatePrompt.OnLatestVersion | src/App.tsx:54-68 | a new version is shown, with its stored count, when no prompt is scheduled or its time has come; otherwise nothing changes |
| Routing.UpdatePrompt.Dismiss | src/App.tsx:614-626 | increments the count, schedules the next prompt at `now` plus the delay for the new count, and stores both under the version |
| Routing.DismissDefers | src/App.tsx:58-62 | after a dismissal the same release is not shown before the scheduled time, and is shown from then on |
| Routing.PrivacyInit | src/App.tsx:189-195 | accepted exactly when the stored version equals the app's; the previous version is kept only when it is non-empty and differs |
| Routing.PrivacyGateConsistent | src/App.tsx:189-217 | an accepted gate has no previous version; the gate read back from the value the accept handler stores is accepted, and the gate read back from the absent key the deny handler leaves is the first-time notice |
| Validation.EmailRegexIff | src/components/ReportBug.tsx:56-58 | the index description of a valid email (one `@`, no white space, a `.` with text on both sides after it) matches the regular expression exactly |
| Validation.ValidEmail | src/components/ReportBug.tsx:56-58 | `validateEmail` read by indices: no white space, one `@` with text before it, and a `.` with text on both sides after it; `EmailRegexIff` ties it to the regular expression |
| Validation.ValidEmailMatches | src/components/ReportBug.tsx:56-58 | every valid address matches the regular expression |
| Validation.MatchIsValidEmail | src/components/ReportBug.tsx:56-58 | every match of the regular expression is a valid address |
| Validation.GenericNameIff | src/components/ReportBug.tsx:60-69 | a name is generic exactly when it is empty, its trimmed lower-cased form is at most 2 long, or that form is a banned name |
| Validation.IsGenericName | src/components/ReportBug.tsx:60-69 | `isGenericName` with its checks in the source's order; `GenericNameIff` states when it holds |
| Validation.SpamContentIff | src/components/SuggestFeature.tsx:60-66 | empty text is not spam; other text is spam exactly when, lower-cased, it contains a marker or has fewer than 10 non-white-space characters; case does not matter |
| Validation.IsSpamContent | src/components/SuggestFeature.tsx:60-66 | `isSpamContent` with its checks in the source's order; `SpamContentIff` states when it holds |
| Validation.ValidateIsFirstFailing | src/components/ReportBug.tsx:88-107 | the submit checks give the message of the first failing check, in the fixed order |
| Validation.Validate | src/components/ReportBug.tsx:88-107 | the early returns of `handleSubmit`, giving the first failing check's problem; see `ValidateIsFirstFailing`, `ValidateAccepts` and `ValidateFirstFailure` |
| Validation.VerdictChain | src/components/ReportBug.tsx:88-107 | the chain of early returns in terms of the seven outcomes |
| Validation.FirstFailingIff | src/components/ReportBug.tsx:88-107 | check `k` is first to fail exactly when it fails and all earlier ones pass |
| Validation.CheckProblemInjective | src/components/ReportBug.tsx:88-107 | each check has its own message, so the message tells which check failed |
| Validation.ValidateAccepts | src/components/SuggestFeature.tsx:69-90 | a form is accepted exactly when every check passes |
| Validation.ValidateFirstFailure | src/components/SuggestFeature.tsx:78-88 | a form is rejected with check `k`'s message exactly when check `k` fails after all earlier ones pass (for suggestions: length 10 after email and name, before spam; then distinctness) |
| Validation.PayloadFor | src/components/SuggestFeature.tsx:92-105 | the fields go as typed; a suggestion is sent as `description` and its details as `stepsToReproduce`; `hp` is sent only when non-empty |
| Validation.OrElse | src/components/ReportBug.tsx:155 | `x \|\| fallback` gives a non-empty `x`, or else the fallback |
| Validation.FailureMessage | src/components/ReportBug.tsx:147-167 | 429 always gives the rate-limit message, 500 the server message, and 400 mentioning spam the flagged message |
| Validation.RateLimitIgnoresBody | src/components/SuggestFeature.tsx:128-129 | a 429 reply gives the rate-limit message whatever its body, parsed or not |
| Validation.ReplyOutcome | src/components/ReportBug.tsx:141-174 | accepted exactly for an ok response whose body parses; otherwise rejected with the mapped status message or the network error |
| Validation.SetField | src/components/ReportBug.tsx:177-185 | changing a field sets that field and no other |
| Validation.FeedbackForm.constructor | src/components/ReportBug.tsx:20-31 | an empty form, no message, nothing submitted |
| Validation.FeedbackForm.HandleChange | src/components/ReportBug.tsx:177-185 | sets the field and clears the error message |
| Validation.FeedbackForm.HandleSubmit | src/components/ReportBug.tsx:81-175 | a failing check shows its message and nothing is sent; otherwise exactly one request with the form's payload is sent, and the reply decides success or the message |
| Validation.FeedbackForm.Send | src/components/ReportBug.tsx:109-174 | one request is sent, submitting ends false, and the outcome is shown |
| Dashboard.DaysUntil | src/components/Dashboard.tsx:25 | whole days to the due date, truncated toward zero |
| Dashboard.IsOverdue | src/components/Dashboard.tsx:21-23 | marked overdue, or unpaid with `now` after a valid due date |
| Dashboard.IsDueSoon | src/components/Dashboard.tsx:24-27 | unpaid with a valid due date 0 to 7 whole days away |
| Dashboard.UnpaidFines | src/components/Dashboard.tsx:18 | `unpaidFines`; `Classification` states its members |
| Dashboard.OverdueFines | src/components/Dashboard.tsx:21-23 | `overdueFines`; `Classification` states its members |
| Dashboard.UpcomingFines | src/components/Dashboard.tsx:24-27 | `upcomingFines`; `Classification` states its members |
| Dashboard.TotalUnpaid | src/components/Dashboard.tsx:29 | `totalUnpaidAmount`; `TotalUnpaidIsUnpaidAmounts` and `TotalUnpaidAppend` state its value |
| Dashboard.TotalUnpaidIsUnpaidAmounts | src/components/Dashboard.tsx:18-29 | the unpaid total is the sum of the amounts of exactly the unpaid fines |
| Dashboard.TotalUnpaidAppend | src/components/Dashboard.tsx:29 | the total of two lists one after the other is the sum of their totals |
| Dashboard.Classification | src/components/Dashboard.tsx:18-27 | each list holds exactly the fines of its rule; due-soon fines are unpaid; paid and disputed fines are never overdue or due soon |
| Dashboard.OverdueAndDueSoon | src/components/Dashboard.tsx:19-27 | a fine due one millisecond ago is both overdue and due soon |
| Dashboard.StatsOf | src/components/Dashboard.tsx:31-61 | Total Fines is the list length; the overdue and due-soon counts are the numbers of fines meeting each rule, so at most that; the unpaid total is the sum over unpaid fines |
| Dashboard.OverduePanel | src/components/Dashboard.tsx:122 | a prefix of the overdue list: its first three when there are that many, all of it otherwise |
| Dashboard.UpcomingPanel | src/components/Dashboard.tsx:148 | a prefix of the due-soon list: its first three when there are that many, all of it otherwise |
| AddFine.TypeOf | src/types.ts:3 | reading a type name gives a type whose name it is |
| AddFine.TypeValueRoundTrip | src/types.ts:3 | every type's name reads back as that type |
| AddFine.TypeValue | src/types.ts:3 | the string of each fine type; `TypeValueRoundTrip` shows the strings are distinct |
| AddFine.FineTypesAreTypes | src/components/AddFine.tsx:58-64 | every selectable option is a member of `Fine['type']`; `mot` and `insurance` are not offered |
| AddFine.LabelFrom | src/components/AddFine.tsx:79 | `find(...)?.label` gives the caption of an option with that value, and is absent exactly when no option has it |
| AddFine.LabelOf | src/components/AddFine.tsx:79 | a label exists exactly for an offered type value |
| AddFine.OrAbsent | src/components/AddFine.tsx:41-43 | `s \|\| undefined`: absent exactly for empty text, and the text otherwise |
| AddFine.MissingRequired | src/components/AddFine.tsx:28 | title, amount, due date or issue date is empty; `BuildFine` and `HandleSubmit` are stated over it |
| AddFine.SetField | src/components/AddFine.tsx:53-56 | `{ ...prev, [name]: value }` for a text input |
| AddFine.BuildFine | src/components/AddFine.tsx:28-44 | no fine exactly when title, amount, due date or issue date is empty; otherwise status unpaid, the five fields copied verbatim, the amount parsed, and each empty optional field absent |
| AddFine.BuildFineComplete | src/components/AddFine.tsx:33-44 | every fine of that shape is produced by some form |
| AddFine.BuildFineProducible | src/components/AddFine.tsx:33-44 | every produced fine has that shape |
| AddFine.AddFineView.constructor | src/components/AddFine.tsx:11-23 | the initial form: parking, empty fields, today's issue date |
| AddFine.AddFineView.HandleChange | src/components/AddFine.tsx:53-56 | sets the named field, nothing else |
| AddFine.AddFineView.SelectType | src/components/AddFine.tsx:125-131 | choosing an option sets the type to that option's value |
| AddFine.AddFineView.HandleSubmit | src/components/AddFine.tsx:25-51 | a missing required field emits nothing; otherwise the built fine is emitted once and shown saved with the given id |
| AddFine.AddFineView.SavedTypeLabel | src/components/AddFine.tsx:79 | the saved fine's type always has a label |
| Links.LookupKeys | src/components/LinksPage.tsx:46-151 | each category's key looks up its links, and no other key has any |
| Links.Lookup | src/components/LinksPage.tsx:46-151 | `linkCategories[key]`: the links of a known key, absent otherwise; see `LookupKeys` |
| Links.AllLinks | src/components/LinksPage.tsx:212-214 | `allLinks`; `FlattenMembers` states its members |
| Links.Matches | src/components/LinksPage.tsx:217-221 | the title, the description or the category contains the query, both lower-cased |
| Links.CurrentLinks | src/components/LinksPage.tsx:196 | empty with no category or an unknown one; the category's links otherwise |
| Links.GetCategoryTitle | src/components/LinksPage.tsx:198-206 | unknown keys come back unchanged; known keys get their title |
| Links.EveryCategoryTitled | src/components/LinksPage.tsx:198-206 | every category has a title of its own |
| Links.Tag | src/components/LinksPage.tsx:212-214 | each link is tagged with its category, in order |
| Links.FlattenMembers | src/components/LinksPage.tsx:212-214 | `allLinks` holds exactly the links of every category, each with its category |
| Links.Search | src/components/LinksPage.tsx:216-222 | a blank query finds nothing; every result is a link whose title, description or category contains the query, case-insensitively |
| Links.SearchBlank | src/components/LinksPage.tsx:216 | an empty or white-space-only query finds nothing |
| Links.SearchExact | src/components/LinksPage.tsx:217-221 | for a non-blank query a link is found exactly when it matches, and results keep the order of `allLinks` |
| Links.SearchCaseInsensitive | src/components/LinksPage.tsx:217-221 | the query's case does not change the results |
| Links.TotalLinks | src/components/LinksPage.tsx:236 | the Total figure counts every link |
| Links.FlatLinks | src/components/LinksPage.tsx:364 | the flattened links, in order |
| Links.Preview | src/components/LinksPage.tsx:364 | the blank-query preview is the first six links |
| Links.LinkCounts | src/components/LinksPage.tsx:385 | twelve links in all, so six more follow the preview |
| Links.MotTaxCardLeadsNowhere | src/components/LinksPage.tsx:184-193 | the fourth card announces 3 links, but its id `mot-tax` looks up none |
| Links.CategoryOptionsAsWritten | src/components/LinksPage.tsx:153-194 | the four cards as the source lists them, the fourth with id `mot-tax`; see `MotTaxCardLeadsNowhere` |
| Links.CategoryOptions | src/components/LinksPage.tsx:153-194 | one card per category, its id the category's key and its count that category's number of links |
| Links.CategoryOptionsAgree | src/components/LinksPage.tsx:153-194 | every corrected card leads to as many links as it announces |
| Links.CategoryOptionsCorrectOnlyId | src/components/LinksPage.tsx:184-193 | the correction changes only the fourth card's id, to `mot` |
| Links.HandleBack | src/components/LinksPage.tsx:30-44 | with a category: `onNavigateToLinks` when the user came from the links page, else `onBack`, else `onNavigateToLinks`, else a redirect; without one, `onBack` only if present |
| Links.BackFromCategoryAlwaysActs | src/components/LinksPage.tsx:30-40 | from a category the back button always does something, and redirects only when neither callback exists |

## Left out

- JSON values that are not arrays, and `undefined` fields inside patches: a stored document is a list of fines, a queue, or unparsable text, and a patch field is present or absent.
- Fines.DecodeFinesEmpty: a queue array stored under the fines key decodes to `[]`, whereas `JSON.parse` returns any stored array as it is; a typed list of fines cannot hold queue entries. The app itself never writes a queue under that key.
- Storage.LocalStorageService.LoadFines: the same: a stored array of another kind is returned as `[]` rather than as it is.
- Queue entries whose `operation` is not `add`, `update` or `delete`. The switch drops them without throwing; the queue datatype cannot hold them.
- The server's own semantics are abstracted: an applied call does the local service's list operation, a successful call is always applied, a failed add or update may have been applied (its reply body is read inside the `try`), a failed delete was not, and an update of an id the server lacks fails unapplied. HTTP, headers, the API key and JSON bodies are not modelled, nor is a reply lost by the network after the server committed a delete.
- Async/await interleaving and React render scheduling: each callback runs to completion, one at a time.
- Notifications, reminder timers, the 404 auto-redirect, scrolling and viewport code (`src/App.tsx:69-186`, `292-378`, `429-526`). The scroll container appears only as an optional scroll position.
- `handleDenyPrivacy`'s redirect and `exitApp` call. The privacy gate is modelled only as its first reading of storage.
- The update check's fetch (`src/services/updateCheck.ts`). `parseInt` of the stored numbers: the stores hold integers, and an absent key reads as 0.
- Floating point:
  - amounts are integers, and `parseFloat` (with its NaN) is a parameter;
  - `formatCurrency` and `toFixed` are not modelled;
  - `getTypeLabel` in `Dashboard.tsx` only labels rows.
- Date parsing is a parameter (`new Date(s)`); time zones and daylight-saving shifts are not modelled.
- `Number(part)` in `compareVersions`: only plain digit strings are numbers; white space, signs, hex and exponents read as non-numeric (0). Digit strings get their exact value, whereas `Number` rounds past 2^53: the parts "9007199254740993" and "9007199254740992" compare equal in the program and unequal in the model.
- `toLowerCase` covers ASCII letters only. `decodeURIComponent` handles only escapes of ASCII characters; an escape of `%80` or above is treated as malformed.
- Routing.AppState.constructor: requires the first URL to parse. The source's `decodeURIComponent` would throw while the app starts.
- Property names such as `constructor` inherited by the object lookups `linkCategories[category]` and `titles[cat]` (`LinksPage.tsx:196`, `:205`) and `categoryData[category]` (`CategoryLinksPage.tsx:275`); the view map is guarded by `hasOwnProperty` and has no such case.
- Screenshot upload, file checks, `alert` and console logging in the forms. `getBrowserInfo` is modelled, with the user agent as a parameter.
- Validation.ReplyOutcome: an ok reply whose body fails to parse is a rejection carrying the parse error's message. A reply without an `id` gives the id `""`.
- Storage.StorageService.AddFine: in database mode a failure is not promised to leave the list unchanged, since the server may have committed the fine before its reply failed.
- Storage.StorageService.UpdateFine: in database mode a failure is not promised to leave the list unchanged, since the server may have committed the patch before its reply failed.
- UseStorage.StorageHook.AddFine: after a database-mode failure the copy is not promised to stay coherent: the server may hold the fine the copy lacks, until the next load.
- UseStorage.StorageHook.UpdateFine: after a database-mode failure the copy is not promised to stay coherent: the server may hold the patch the copy lacks, until the next load.
- UseStorage.StorageHook.SyncData: the error branch of `syncData` is not reachable for the hybrid service, which never throws from `syncWithServer` or `loadFines`. What the reload writes locally is stated by the hybrid `LoadFines`, not repeated here.
- Link icons and colours, `handleLinkClick`'s `window.open`, and the static link data of `CategoryLinksPage.tsx`.
- AddFine.AddFineView.HandleChange: the type select is modelled by `SelectType` over the offered options, not by free text.

## Findings

| source | as written | input that shows it | evidently intended | confidence | as-written member | corrected member |
|---|---|---|---|---|---|---|
| src/App.tsx:407-411 | `goBack` writes the mapped path itself as the URL, without `BASE_PATH`; `Routing.AppState.GoBack` does the same | repository name `FineTrack`, back to the list page: the URL becomes `/list`, outside `/FineTrack/` where the app is served | prefix the path with `BASE_PATH` as `navigateTo` does (`src/App.tsx:330`) | not executed | Routing.GoBackLeavesBase | Routing.GoBackRoundTrip |
| src/components/LinksPage.tsx:184-193 | the fourth category card has id `mot-tax`, while its links are under `mot` (line 125; also `CategoryLinksPage.tsx:193`) | clicking "MOT & Tax" navigates to category `mot-tax` (`src/App.tsx:589-592`); `CategoryLinksPage.tsx:275-280` then finds no data under that key and shows "Category not found". `Links.CurrentLinks` stands in for that lookup, over the same keys | id `mot` | not executed | Links.MotTaxCardLeadsNowhere | Links.CategoryOptionsAgree |
