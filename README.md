# Passwords app core, modelled in Dafny

This project models six pieces of the server side of the Nextcloud "Passwords"
app (bendikrb/passwords) and proves what they promise.

- **API objects for folders and tags.** These are the PHP arrays the API
  returns for a folder or a tag, at a `+`-separated detail level.
  - The levels are MODEL, REVISIONS, PARENT, FOLDERS and PASSWORDS.
  - The object is null when the current revision is trashed or hidden and the
    matching exclude flag is set.
  - Related folders and passwords are projected at MODEL level under the
    container's own hidden and trashed flags, inverted.
- **The daily password recheck job.** It refreshes the breach database when
  needed and rescores every password revision whose status is not 2.
  - It writes back only the status changes.
  - It counts, per user, the changes that hit a model's current revision.
  - It then notifies and mails every counted user.
- **The word-based password generator.** Words are capitalised and
  concatenated. A result shorter than 12 characters is retried under a retry
  counter kept on the service, and never reset. Three optional substitution
  passes replace letters by digits, special characters or smileys.
- **Tag create and update.** `create` makes a new tag model; `update` looks up
  an existing one. Both then create a fresh revision bound to the model, save
  it, and point the model at it. Any failure becomes an error response.
- **The API security middleware.** This is the HTTPS guard plus the mapping
  from an exception to the (id, message, status) error reply.

Modules, one file each:

- `Common` (`common.dfy`):
  - the `Result`/`Option` wrappers
  - the PHP array model (`Key`, `Value`, `Fields`)
  - `explode('+', …)` as `Split`, with its round trip to `Join`
  - the visibility rule `Excluded`
  - the password loop of `getPasswords`, shared by both helpers
- `FolderObjects` (`folder_objects.dfy`), `TagObjects` (`tag_objects.dfy`).
  - These are pure functions over a `Services` record.
  - The record holds the `findByUuid` lookups as maps and the list queries as
    functions.
  - The password helper's MODEL projection is a function that returns null or
    an array.
- `PasswordCheck` (`check_passwords.dfy`):
  - a `CheckPasswordsJob` class whose `badPasswords` counter persists across
    runs
  - a `RevisionMapper` class holding the revision table
  - loops proved against reference functions (`Changes`, `Tally`, `Dispatch`,
    `ScanLog`)
- `Words` (`words.dfy`):
  - a `WordsService` class with the `retries` field
  - `ReplaceCharacters` as the source's while/foreach loop, proved equal to the
    recursive reference `Substituted`
  - `GetPasswordSpec` as the reference for one call
- `TagApi` (`tag_api.dfy`):
  - a `TagStore` class and a `TagApiController` class
  - the store calls and both actions as functions over a `StoreState`
  - a log of store writes, to state their order
- `ApiSecurity` (`api_security.dfy`): pure functions.

The collaborators are parameters:

- the security scorer (a function of the revision uuid)
- whether the breach database needs a refresh, and whether the refresh throws
- whether a user's notification throws
- the word source (its answer per strength and attempt number, or a throw)
- store back-end failures (`Faults`)

### Behaviour of the code worth knowing

- **Substitution direction.** `replaceCharacters` sets `$reverse = !false`
  after its first replacement and never clears it. So every replacement after
  the first hits the *last* match (`LaterReplacementsHitLastMatch`). The loop
  runs until `amount` rounds or `amount` replacements have been made,
  whichever comes first; a round without a match does not end it.
- **`amount`.** `getPassword` sets `amount` to 2 when strength is 1 and to
  the strength otherwise. A strength of 0 or less therefore makes every
  substitution pass the identity (`NonPositiveStrengthKeepsPassword`).
- **Repeated notifications.** The recheck job never clears `badPasswords`.
  A second run with the same scorer finds no change, yet re-sends every
  counted user the same notification and mail
  (`SecondRunRepeatsNotifications`).
- **Parent lookup.** In `getParent`:
  - a parent uuid that `findByUuid` does not know throws;
  - only a parent whose projection is null falls back to the base folder, at
    the default flags;
  - that fallback is itself null when the base folder is hidden.
- **Orphaned revisions.** `create` and `update` save the new revision before
  `setRevision` writes the model. If that model write fails, the reply is an
  error, but the saved revision stays behind with no model referencing it.

## Model

| member | source | states |
|---|---|---|
| ApiSecurity.BeforeController | src/lib/Middleware/ApiSecurityMiddleware.php:62-69 | The guard rejects with ("HTTPS required", 400) exactly when the controller is not the page controller and the protocol is not "https". |
| ApiSecurity.AfterException | src/lib/Middleware/ApiSecurityMiddleware.php:78-111 | There is no reply exactly when the class name does not start with the 28-character API namespace. Otherwise the status field is "error" and the triple is chosen as follows. Exactly `DoesNotExistException` gives (404, "Resource not found", 404), even over an ApiException payload. Any other ApiException gives its own id, message and HTTP code. Anything else gives (0, "Unable to complete request", 503). |
| ApiSecurity.PrefixTestAdmitsLongerNames | src/lib/Middleware/ApiSecurityMiddleware.php:79-81 | The namespace test is a 28-character prefix test: every class name that extends the prefix gets a reply. |
| Common.JoinSplit | src/lib/Helper/ApiObjects/FolderObjectHelper.php:93 | `explode('+', level)` loses nothing: joining the pieces with '+' gives the level back. |
| Common.SplitJoin | src/lib/Helper/ApiObjects/TagObjectHelper.php:88 | Exploding the '+'-join of '+'-free pieces gives the same pieces, in order. |
| FolderObjects.GetApiObject | src/lib/Helper/ApiObjects/FolderObjectHelper.php:87-117 | A missing current revision throws `DoesNotExist`. Otherwise the result is null exactly when (excludeTrash and trashed) or (excludeHidden and hidden). A revision that is not excluded yields the assembled facets, or the error their assembly throws. |
| FolderObjects.VisibleObjectIsFacets | src/lib/Helper/ApiObjects/FolderObjectHelper.php:96-116 | A non-null object comes from a found revision that is not excluded, and equals the requested facets of it. |
| FolderObjects.UnknownLevelGivesEmptyObject | src/lib/Helper/ApiObjects/FolderObjectHelper.php:93-116 | For a visible folder, a level with no recognised token gives a non-null empty array. |
| FolderObjects.ModelFieldsShape | src/lib/Helper/ApiObjects/FolderObjectHelper.php:126-141 | `getModel` has exactly the twelve model keys, all scalar. Identity comes from the folder. The `revision` entry is the current revision's uuid. Label, parent and the three flags come from the revision. |
| FolderObjects.ModelFacet | src/lib/Helper/ApiObjects/FolderObjectHelper.php:100-102 | With MODEL requested, every key of the `getModel` array is in the result with its `getModel` value. The one exception is `parent` when PARENT is also requested. |
| FolderObjects.ModelFacetKeeps | src/lib/Helper/ApiObjects/FolderObjectHelper.php:99-114 | The same for any detail record with MODEL set: every model key keeps its `getModel` value, `parent` excepted when PARENT is requested. |
| FolderObjects.AssembleKeepsModel | src/lib/Helper/ApiObjects/FolderObjectHelper.php:103-114 | For every model key k, the facets REVISIONS, PARENT, FOLDERS and PASSWORDS leave k present with the MODEL array's value. The exception is `parent` when PARENT is requested. |
| FolderObjects.FacetsWrites | src/lib/Helper/ApiObjects/FolderObjectHelper.php:103-114 | Each requested later facet's key holds exactly what that facet computes. A requested PARENT or FOLDERS facet has succeeded. |
| FolderObjects.ModelLevelIsProjection | src/lib/Helper/ApiObjects/FolderObjectHelper.php:189-195 | A nested MODEL-level call is exactly the `getModel` projection, or null when excluded. So nested objects carry no revisions, parent, folders or passwords key, and the recursion stops there. |
| FolderObjects.RevisionsFacet | src/lib/Helper/ApiObjects/FolderObjectHelper.php:151-175 | `revisions` has exactly one entry per revision from `findByModel`, in the same order. Each entry is that revision's flat field array. |
| FolderObjects.RevisionFieldsShape | src/lib/Helper/ApiObjects/FolderObjectHelper.php:157-169 | A history entry holds only scalar values and no `revision` key. |
| FolderObjects.ParentFacet | src/lib/Helper/ApiObjects/FolderObjectHelper.php:186-199 | The parent's MODEL projection under the folder's inverted flags when it is not null. Otherwise the base folder's projection under the default flags (true, false), or null when the base folder is hidden. It sits under `parent`. |
| FolderObjects.ParentEntry | src/lib/Helper/ApiObjects/FolderObjectHelper.php:188-196 | When `getParent` succeeds, the parent is a known folder with a known revision, and the entry follows the parent/base-folder rule above. |
| FolderObjects.FoldersFacet | src/lib/Helper/ApiObjects/FolderObjectHelper.php:210-222 | `folders` is present and equals the non-null MODEL projections of `findByParent`, in order, under the inverted flags. It has at most as many entries as there are children. |
| FolderObjects.CollectFoldersIsVisibleModels | src/lib/Helper/ApiObjects/FolderObjectHelper.php:212-219 | The folders loop yields the reference filter (`VisibleModels`) when every child's revision is found. Otherwise it throws `DoesNotExist`. |
| FolderObjects.VisibleModelsMembers | src/lib/Helper/ApiObjects/FolderObjectHelper.php:215-218 | A child's projection is listed exactly when the inverted flags do not exclude it; nothing else is listed. |
| FolderObjects.HiddenTrashedContainerListsAll | src/lib/Helper/ApiObjects/FolderObjectHelper.php:216 | Under the flags a hidden and trashed container passes (false, false), every child is listed. |
| FolderObjects.PasswordsFacet | src/lib/Helper/ApiObjects/FolderObjectHelper.php:234-247 | `passwords` is present and equals the non-null projections of `findByFolder`, in order, under the inverted flags. It has at most as many entries as there are passwords. |
| Common.EntryList | src/lib/Helper/ApiObjects/FolderObjectHelper.php:155-172 | The revisions facet has one entry per revision returned by `findByModel`, in that order. Entry i is the field array of revision i. The tag helper's loop is the same. |
| Common.CollectPasswordsMembers | src/lib/Helper/ApiObjects/FolderObjectHelper.php:240-244 | Every non-null projection is listed, and every listed entry is the projection of some password. |
| Common.KeptPositionsAscendAndCover | src/lib/Helper/ApiObjects/TagObjectHelper.php:177-181 | The positions the password loop keeps are in range and strictly ascending, and they include every password whose projection is not null. |
| Common.CollectPasswordsInOrder | src/lib/Helper/ApiObjects/TagObjectHelper.php:177-181 | The loop is an order-preserving filter. Item k is the projection of the password at the k-th kept position, and the kept positions ascend. Every password with a non-null projection has a kept position. So each such password is listed exactly once, in list order. The same loop is FolderObjectHelper.php:240-244. |
| TagObjects.GetApiObject | src/lib/Helper/ApiObjects/TagObjectHelper.php:82-107 | A missing current revision throws. Otherwise the call succeeds, and the result is null exactly when (excludeTrash and trashed) or (excludeHidden and hidden). A non-null result is the assembled facets. |
| TagObjects.VisibleObjectIsFacets | src/lib/Helper/ApiObjects/TagObjectHelper.php:92-106 | A non-null object comes from a found revision that is not excluded, and equals its requested facets. |
| TagObjects.UnknownLevelGivesEmptyObject | src/lib/Helper/ApiObjects/TagObjectHelper.php:88-106 | For a visible tag, a level with no recognised token gives a non-null empty array. |
| TagObjects.FacetOrder | src/lib/Helper/ApiObjects/TagObjectHelper.php:95-106 | With all three facets requested, the array is the MODEL array extended by the `passwords` and `revisions` entries. Neither facet overwrites a model key, and its keys are exactly the model keys plus those two. |
| TagObjects.ProjectionShape | src/lib/Helper/ApiObjects/TagObjectHelper.php:115-157 | `getModel` has exactly the ten model keys, all scalar. A history entry is scalar, has no `revision` key and carries `color`. |
| TagObjects.ModelFacet | src/lib/Helper/ApiObjects/TagObjectHelper.php:115-129 | The object's `revision` is the tag's own revision reference. Label, color and the three flags come from the current revision. Every key of the `getModel` array is in the result with its `getModel` value, whatever else is requested. |
| TagObjects.AssembleKeepsModel | src/lib/Helper/ApiObjects/TagObjectHelper.php:98-106 | For every model key k, PASSWORDS and REVISIONS leave k present with the MODEL array's value. |
| TagObjects.RevisionsFacet | src/lib/Helper/ApiObjects/TagObjectHelper.php:138-160 | `revisions` has one entry per revision from `findByModel`, in order. Each entry is that revision's flat array, including its `color`. |
| TagObjects.PasswordsFacet | src/lib/Helper/ApiObjects/TagObjectHelper.php:172-184 | `passwords` is always present when requested. It equals the non-null projections of `findByTag`, in order, under the inverted flags, and has at most as many entries as there are passwords. |
| PasswordCheck.CheckPasswordsJob.constructor | src/lib/Cron/CheckPasswordsJob.php:55 | A new job starts with no counted users and no calls made. |
| PasswordCheck.CheckPasswordsJob.Run | src/lib/Cron/CheckPasswordsJob.php:87-94 | The refresh happens exactly when required, before any scoring. A throwing refresh ends the run with nothing scored or written. Otherwise the table, the counter and the calls are those of one full check. |
| PasswordCheck.CheckPasswordsJob.CheckRevisionStatus | src/lib/Cron/CheckPasswordsJob.php:101-120 | The job scans the rows whose status is not 2 and writes back exactly the status changes. `badRevisionCounter` is the number of changes. The counter grows by `Tally` of the changes, and the calls are the scan log followed by `Dispatch`. |
| PasswordCheck.CheckPasswordsJob.Scan | src/lib/Cron/CheckPasswordsJob.php:106-116 | The loop leaves table, counter and call log as the reference `ScanFrom` does, and counts exactly the changes. |
| PasswordCheck.CheckPasswordsJob.CheckRevision | src/lib/Cron/CheckPasswordsJob.php:107-115 | The revision is scored. It is changed, persisted and credited exactly when the new status differs from the old one. |
| PasswordCheck.CheckPasswordsJob.SendBadPasswordNotification | src/lib/Cron/CheckPasswordsJob.php:125-139 | The user is credited only when the revision is its model's current one. A new user starts at 1 and goes last in key order. A missing current revision is swallowed. |
| PasswordCheck.CheckPasswordsJob.NotifyUsers | src/lib/Cron/CheckPasswordsJob.php:144-153 | Each counted user gets the sends of `Dispatch`, in key order, and the counter is unchanged. |
| PasswordCheck.RevisionMapper.Update | src/lib/Cron/CheckPasswordsJob.php:112 | `update` replaces the row with the revision's uuid and nothing else. |
| PasswordCheck.ScanFromSummary | src/lib/Cron/CheckPasswordsJob.php:106-116 | The loop's effect in closed form: the table after all changes, the counter after `Tally`, and the log plus `ScanLog`. |
| PasswordCheck.MatchingMembers | src/lib/Cron/CheckPasswordsJob.php:103 | A row is scanned exactly when it is in the table and its status is not 2. |
| PasswordCheck.ScanLogScoresAll | src/lib/Cron/CheckPasswordsJob.php:106-108 | Every scanned revision is scored once, in order. |
| PasswordCheck.ScanLogWritesChanges | src/lib/Cron/CheckPasswordsJob.php:110-112 | The revisions written back are exactly the status changes, in order, each holding its new status. |
| PasswordCheck.ChangesAreStatusChanges | src/lib/Cron/CheckPasswordsJob.php:110-114 | A change is recorded exactly for a revision whose score differs from its status, in either direction. |
| PasswordCheck.ScanRescores | src/lib/Cron/CheckPasswordsJob.php:103-116 | With distinct uuids, after the scan every row whose status was not 2 holds its score, and no other row changes. |
| PasswordCheck.RescoredRowsAreSettled | src/lib/Cron/CheckPasswordsJob.php:103-110 | A rescan of a rescored table finds no change. |
| PasswordCheck.SecondScanChangesNothing | src/lib/Cron/CheckPasswordsJob.php:101-116 | Scanning twice with the same scorer: the second scan changes nothing. |
| PasswordCheck.TallyKeepsCountsValid | src/lib/Cron/CheckPasswordsJob.php:130-134 | Crediting keeps every count at least 1, and keeps the keys duplicate-free and in step with the map. |
| PasswordCheck.TallyCounts | src/lib/Cron/CheckPasswordsJob.php:127-134 | A user's count grows by exactly the number of changes that hit a current revision of theirs. |
| PasswordCheck.HitsBounded | src/lib/Cron/CheckPasswordsJob.php:114-134 | One user's credited changes are at most all credited changes, which are at most `badRevisionCounter`. |
| PasswordCheck.TallyTotal | src/lib/Cron/CheckPasswordsJob.php:110-134 | The sum of the counts grows by exactly the credited changes, so by at most `badRevisionCounter`. |
| PasswordCheck.DispatchNotifiesEachUserOnce | src/lib/Cron/CheckPasswordsJob.php:145-147 | The users notified are exactly the counted users, once each, in key order, whatever fails. |
| PasswordCheck.UserSendsRecipients | src/lib/Cron/CheckPasswordsJob.php:146-151 | For one user: one notification, then a mail unless the notification threw. |
| PasswordCheck.DispatchMailsDelivered | src/lib/Cron/CheckPasswordsJob.php:146-151 | The users mailed are exactly those whose notification went through, in key order. |
| PasswordCheck.DeliveredMembers | src/lib/Cron/CheckPasswordsJob.php:145-151 | A user is mailed exactly when counted and the notification did not throw. |
| PasswordCheck.DispatchCarriesCounts | src/lib/Cron/CheckPasswordsJob.php:147-148 | Every notification and mail goes to a counted user and carries that user's count. |
| PasswordCheck.SecondRunRepeatsNotifications | src/lib/Cron/CheckPasswordsJob.php:130-153 | The counter is never cleared. A second run with the same scorer finds no change, yet sends every counted user the same notification and mail again. |
| Words.WordsService.constructor | src/lib/Services/WordsService.php:25 | The retry counter starts at 0. |
| Words.WordsService.GetPassword | src/lib/Services/WordsService.php:57-84 | The result and the new retry counter are those of `GetPasswordSpec` on the old counter: the recursive retries, the uniform `Internal Words API Error` failure, and the passes in order. |
| Words.RetriesCounted | src/lib/Services/WordsService.php:64-71 | Every call, recursive retries included, raises the counter. Starting at 5 or below, it ends at 6 at most. |
| Words.ExhaustedServiceFails | src/lib/Services/WordsService.php:64-65 | Once the counter is at 5 or more, every call fails and the counter still grows. |
| Words.ShortWordsFail | src/lib/Services/WordsService.php:65-71 | A source whose words always join to fewer than 12 characters makes the call fail. |
| Words.GeneratedPasswordIsLongEnough | src/lib/Services/WordsService.php:69-78 | A success comes from the words the source gave on the final attempt. Their capitalised concatenation has at least 12 characters, and the returned password is that string after the passes, so it is at least 12 too. |
| Words.Amount | src/lib/Services/WordsService.php:73 | `amount` is never below the strength, and is at least 2 for every positive strength. It is positive exactly when the strength is. |
| Words.NonPositiveStrengthKeepsPassword | src/lib/Services/WordsService.php:73-76 | A strength of 0 or less makes the numbers, special-character and smiley passes leave the password unchanged. |
| Words.PositiveStrengthReplaces | src/lib/Services/WordsService.php:73-76 | With a positive strength, a pass over a password holding one of its table letters makes at least one and at most `amount` replacements. |
| Words.PassFindsMatch | src/lib/Services/WordsService.php:145-157 | A round that still has an occurring table letter ahead makes a replacement. |
| Words.AugmentKeepsLength | src/lib/Services/WordsService.php:74-76 | The numbers, special-character and smiley passes never shorten the password. |
| Words.UcFirst | src/lib/Services/WordsService.php:92 | `ucfirst` keeps the length and everything after the first character. The first character is the same letter, not lower case. |
| Words.WordsToPassword | src/lib/Services/WordsService.php:91-95 | The password's length is the sum of the word lengths. |
| Words.WordsToPasswordSlices | src/lib/Services/WordsService.php:91-95 | Word k occupies its own slice of the password, capitalised, right after the words before it. |
| Words.ReplaceCharacters | src/lib/Services/WordsService.php:140-165 | The while/foreach loop with its `reverse` flag returns exactly the reference `Substituted` word. |
| Words.AddNumbers | src/lib/Services/WordsService.php:103-107 | The digits pass over the table e→3, l→1, o→0, s→5, t→7. |
| Words.AddSpecialCharacters | src/lib/Services/WordsService.php:115-119 | The special-character pass over e→€, a→@, s→$, i→!. |
| Words.AddSmileys | src/lib/Services/WordsService.php:127-131 | The smiley pass over d→:D, p→;P, o→:O. |
| Words.ReversedReplaceIsReplaceLast | src/lib/Services/WordsService.php:147-153 | Reverse, replace the first match by the reversed replacement, reverse back: this replaces the last case-insensitive match of the original. |
| Words.ReplacementLength | src/lib/Services/WordsService.php:152 | One replacement swaps exactly one character for the replacement string. |
| Words.SubstitutedProperties | src/lib/Services/WordsService.php:140-165 | At most `amount` replacements are made, and none when `amount` is 0 or less. The length grows by (replacement length − 1) per replacement. A word with no table letter comes back unchanged. |
| Words.RoundsShape | src/lib/Services/WordsService.php:144-161 | From any loop state, the replacements made stay within `amount` and the word grows by exactly (replacement length − 1) each. |
| Words.RoundsWithoutMatch | src/lib/Services/WordsService.php:144-146 | When no table letter occurs, every round leaves the word and the count unchanged. |
| Words.FirstReplacementHitsFirstMatch | src/lib/Services/WordsService.php:145-157 | For any `amount` and any round before the first replacement, letters that do not occur are skipped. The first occurring letter is replaced at its FIRST case-insensitive match, because `reverse` is still unset. The call then ends if `amount` is 1, and otherwise continues with the next letter with one replacement done. |
| Words.LaterReplacementsHitLastMatch | src/lib/Services/WordsService.php:145-157 | For any `amount` and at any point of any round after the first replacement, letters that do not occur are skipped. The next occurring letter is replaced at its LAST case-insensitive match, because `reverse` stays set. The call then ends if that was the `amount`-th replacement, and otherwise continues with the next letter. |
| TagApi.CreateModel | src/lib/Controller/Api/TagApiController.php:82 | `modelService->create()` gives a fresh uuid and no revision, or throws. |
| TagApi.CreateRevision | src/lib/Controller/Api/TagApiController.php:83-85 | The new revision has a fresh uuid and is bound to the given model, or creation throws. |
| TagApi.Save | src/lib/Controller/Api/TagApiController.php:87 | `save` stores the revision under its uuid and touches no model, or throws. |
| TagApi.SetRevision | src/lib/Controller/Api/TagApiController.php:88 | It succeeds exactly for a saved revision bound to the model, when the model write does not fail. It then points the model at it. A failure changes nothing. |
| TagApi.FindByUuid | src/lib/Controller/Api/TagApiController.php:127 | The lookup finds exactly the known uuids and changes nothing. |
| TagApi.CreateTag | src/lib/Controller/Api/TagApiController.php:73-98 | The store stays consistent. On success the reply is 201 with a new model uuid and a new revision uuid. That revision carries the input, `hidden` and `favourite` as given, and trashed and deleted false. It is saved, then the model is pointed at it. Every failure gives an error reply and leaves the models untouched. A failure before the save also leaves the revisions and writes untouched. A failing `setRevision` after the save leaves the saved revision behind, referenced by no model. |
| TagApi.UpdateTag | src/lib/Controller/Api/TagApiController.php:116-141 | A missing model gives an error reply and changes nothing. On success the reply is 200 with the model's uuid and a new revision bound to it. The revision is saved and the model repointed. Every failure leaves the models, and so the tag's current revision, untouched. A failure before the save also leaves the revisions and writes untouched. A failing `setRevision` after the save leaves the new revision saved and bound to the tag, but referenced by no model. |
| TagApi.TagStore.NewModel | src/lib/Controller/Api/TagApiController.php:82 | The store call behaves as `CreateModel` says and leaves the store in its state. |
| TagApi.TagStore.NewRevision | src/lib/Controller/Api/TagApiController.php:83-85 | The store call behaves as `CreateRevision` says. |
| TagApi.TagStore.SaveRevision | src/lib/Controller/Api/TagApiController.php:87 | The store call behaves as `Save` says. |
| TagApi.TagStore.PointAt | src/lib/Controller/Api/TagApiController.php:88 | The store call behaves as `SetRevision` says. |
| TagApi.TagStore.Find | src/lib/Controller/Api/TagApiController.php:127 | The store call behaves as `FindByUuid` says. |
| TagApi.TagApiController.Create | src/lib/Controller/Api/TagApiController.php:73-98 | The action's reply and the store's new state are those of `CreateTag`. |
| TagApi.TagApiController.Update | src/lib/Controller/Api/TagApiController.php:116-141 | The action's reply and the store's new state are those of `UpdateTag`. |
| TagApi.TagApiController.Persist | src/lib/Controller/Api/TagApiController.php:87-93 | Save, then repoint, then the JSON reply. Each failure, a failing model write after the save included, becomes an error reply. |
| TagApi.SavedRevisionsAreImmutable | src/lib/Controller/Api/TagApiController.php:129-134 | Neither action changes a revision that was already saved. |
| TagApi.SaveBeforeRepoint | src/lib/Controller/Api/TagApiController.php:133-134 | In both actions, every model write is preceded by the save of the revision it points at. |
| TagApi.UpdateTwice | src/lib/Controller/Api/TagApiController.php:127-136 | Two updates leave the tag at the second revision. The first revision is still saved and bound to the tag. |

## Left out

- **Logging.** The logger calls in the job, the service and the middleware
  only write logs.
- **JSON and HTTP.** JSON serialisation and the HTTP response classes are out;
  only the (id, message, status) triple and the body fields are kept.
- **`TimedJob`.** The 24-hour interval and any concurrent job runs are out.
- **Notification and mail transports.**
  - Whether a user's notification throws an `ApiException` is an oracle.
  - A throwing mail ends that user's `try` block with nothing left to skip, so
    it is not represented.
- **Throwables other than `ApiException` from the transports.** These would
  abort the loop; the model treats every notification failure as an
  `ApiException`.
- **The security scorer.**
  - It is a total function of the revision uuid, and it does not throw.
  - An exception from it would abort the job; the model does not cover that.
- **The breach-database refresh (`updateDb`).** It is modelled as a flag saying
  whether it throws. Its effect on later scores is part of the scorer
  parameter.
- **The revision mapper's storage internals.**
  - The mapper is a table of rows plus a map from model to current revision.
  - `findCurrentRevisionByModel` throwing is the model missing from that map.
  - `MultipleObjectsReturnedException` is not distinguished from a missing
    revision.
- **The word source.** `getWordsHelper()->getWords($strength)` is an oracle
  indexed by strength and attempt number; a throw is `None`.
- **Character handling in the generator.**
  - Strings are sequences of characters, and `€` is one character.
  - `strlen` and `strrev` are modelled on characters, not UTF-8 bytes. For
    `strrev`, the double reversal around each replacement cancels.
  - Case-insensitive matching and `ucfirst` are ASCII-only.
- Words.GetPasswordSpec: the retry threshold at WordsService.php:71 counts the
  password's length in characters. PHP's `strlen` counts bytes, so PHP accepts
  a non-ASCII join of fewer than 12 characters that is at least 12 bytes long.
  The model retries such a join instead.
- Words.ShortWordsFail: "shorter than 12" is measured in characters, not in the
  bytes `strlen` counts.
- Words.GeneratedPasswordIsLongEnough: promises at least 12 characters. PHP
  guarantees only 12 bytes, which for non-ASCII words can be fewer characters.
- **The password helper.** `PasswordObjectHelper::getApiObject` is not part of
  this model; it is a function returning null or an array. Its lazy lookup in
  the dependency container is left out.
- **Folder and tag services.** `FolderService`, `TagService` and the revision
  services are not part of this model.
  - `findByUuid` is a map lookup that throws `DoesNotExist` on a missing key.
  - The list queries are functions of the uuid.
- **Level names.** The `LEVEL_*` constants come from `AbstractObjectHelper`,
  which is not part of this model. Their values "model", "revisions",
  "parent", "folders" and "passwords" are assumed.
- **Tag store behaviour.** `AbstractObjectApiController` (which holds
  `createJsonResponse` and `createErrorResponse`), `TagService` and
  `TagRevisionService` are not part of this model. So the model assumes:
  - the default JSON status is 200;
  - `modelService->create()` allocates a model without saving it;
  - `setRevision` saves the model;
  - back-end failures are the `Faults` flags.
- **TagApi.SetRevision.** Its integrity check (a saved revision, bound to the
  model) is an assumption about `TagService`. Both actions always meet it.
- **TagApi error replies.** An error reply keeps only which kind of failure
  occurred, not the text `createErrorResponse` builds.
- TagObjects.FacetOrder: the order of keys in a PHP array is not modelled,
  because the array is a map. The lemma states which keys the array holds and
  their values. It does not state that the serialised reply lists the model
  keys, then `passwords`, then `revisions`.
- **The unused `revisionCache` field** of the folder helper is not modelled.
