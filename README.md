# rootle trigger pipeline, in Dafny

rootle lets an operator drive two GSAP batch services through an S3 bucket.
The operator fills in a form in the web front end. The front end asks the
backend to generate a *trigger file* (`Generate_…txt`) and upload it to the
SFTP user's import folder. The batch process answers with *output files* in
the export folder, and the output monitor finds the outputs that belong to a
given trigger by parsing the trigger's name and matching the listed output
names against patterns built from it. Around the pipeline sit several
front-end pieces:

- the AWS profile store;
- the parser that reads pasted `KEY=VALUE` credential text;
- an upload history kept in browser storage;
- the pages that edit, list, filter and sort all of these.

This project models that core and proves properties of it:

| module | models |
|---|---|
| `FileGenerator` | the trigger name, body and import key of an end-of-day (single, range, bulk) or monthly request |
| `S3Service` | the trigger parser, the output-name patterns, the filtering of a listing, `generatedAt`, the upload result |
| `TriggerPipeline` | generator and parser put together: round trips and "which outputs answer this trigger" |
| `CloudServiceController` | the guard chains of the five handlers (400/401/500), the import and export folders |
| `CredentialParser` | `parseCredentials` (the hook's and the profiles page's identical copy) and the hook's text box |
| `ProfileStore` | the profile context: create, update, delete, set-active, record a validation, load from storage |
| `AwsProfilesPage` | the paste-and-fill merges, form resets, editing, the show-secret switches, the masked access key |
| `UploadHistory` | the stored history: newest first, at most 100 entries |
| `GsapEodPage`, `GsapMonthlyPage` | previews, validity, the request sent, quick fills, the history entries written |
| `HistoryPage` | the search, service and status filters, the counts, the newest-first order, clearing |
| `OutputsPage` | the monitor's guards and fallback, the listing and its three-way sort, the viewer, the download name |
| `Strings`, `Sequences`, `Sorting`, `Wrappers` | the JavaScript string and array operations the code relies on |

Modelling conventions:

- A clock reading, a generated id and the outcome of every call into S3, STS or `fetch` are parameters.
- Such a call enters as `Call.Returned(value)` or `Call.Threw(message)`.
- Timestamps are integers.
- When a request or form field is missing, the model uses `""`. Both read as false in the source's checks.
- An optional field is an `Option`. When a template literal prints an absent field, it prints `undefined`.
- The browser-storage entries are fields of the classes that own them.

## Model

| member | source | states |
|---|---|---|
| FileGenerator.EodFileName | backend/src/services/FileGeneratorService.ts:29-42 | fails exactly for a generation type other than single, range, bulk, with "Unknown generation type: …"; otherwise the name is `Generate_{serviceType}_…txt` |
| FileGenerator.EodContent | backend/src/services/FileGeneratorService.ts:44-53 | the body is empty unless the request is bulk with a non-empty site list |
| FileGenerator.GenerateEodFile | backend/src/services/FileGeneratorService.ts:5-15 | an unknown type fails with the name's error; otherwise name, body and `{sftpUser}/Import/EODSales/{fileName}` |
| FileGenerator.PaddedMonth | backend/src/services/FileGeneratorService.ts:57 | a month of two or more characters is unchanged; a shorter one is left-filled with `0` to length 2 |
| FileGenerator.GenerateMonthlyFile | backend/src/services/FileGeneratorService.ts:17-27 | the monthly trigger is empty, named with the padded month, under `{sftpUser}/Import/FuelMonthEndDips/` |
| FileGenerator.BulkContentLines | backend/src/services/FileGeneratorService.ts:47-48 | the bulk body split on newlines gives back exactly the requested sites, in order |
| FileGenerator.BulkContentExample | backend/src/services/FileGeneratorService.ts:44-53 | three bulk sites give the body `a\nb\nc` |
| FileGenerator.PaddedMonthExample | backend/src/services/FileGeneratorService.ts:55-59 | "4" pads to "04" and "11" stays "11" |
| FileGenerator.EodKeyEndsInFileName | backend/src/services/FileGeneratorService.ts:12 | the last path segment of the import key is the trigger name |
| S3Service.TriggerBaseName | backend/src/services/S3Service.ts:110 | the name is the base with `Generate_` in front when it starts so and `.txt` after when the rest ends so; a name with neither is its own base |
| S3Service.TriggerBaseNameOfTrigger | backend/src/services/S3Service.ts:110 | stripping removes exactly the `Generate_` prefix and `.txt` suffix a trigger name has |
| S3Service.ParseTrigger | backend/src/services/S3Service.ts:108-172 | a descriptor exists iff the service is GSAP-EOD or GSAP-Monthly and the base has at least three `_` parts; monthly gives (parts[1], parts[2]); GSAP-EOD never gives a monthly descriptor |
| S3Service.ParseEodBulk | backend/src/services/S3Service.ts:118-132 | an end-of-day trigger whose second part is `BULK` is a bulk request for its first and third parts, whatever parts follow |
| S3Service.ParseEodRange | backend/src/services/S3Service.ts:118-146 | for a site other than `BULK`, a third part of `-`-joined dates is a range between the first two dates, whatever follows |
| S3Service.ParseEodSingle | backend/src/services/S3Service.ts:118-154 | for a site other than `BULK`, a dash-free third part is a single date, whatever parts follow |
| S3Service.ShortOrUnknownTriggerIsUnparseable | backend/src/services/S3Service.ts:120-171 | fewer than three parts, or any other service type, gives no descriptor |
| S3Service.YearMonthPrefix | backend/src/services/S3Service.ts:206-207 | the year and month substrings together are the first six characters of `yearMonth` |
| S3Service.SingleMatchesExactly | backend/src/services/S3Service.ts:190-195 | an output name matches the single pattern iff its timestamp is `\d{8}T\d{6}` and its business date is the trigger's |
| S3Service.SingleMatchIsOutputName | backend/src/services/S3Service.ts:190-195 | everything the single pattern accepts is `{type}_{site}_{timestamp}_{date}.txt` |
| S3Service.RangeMatchesBoundariesOnly | backend/src/services/S3Service.ts:196-200 | a range matches an output iff its date is the start or the end date; dates between are not matched |
| S3Service.BulkMatchesAnyDigitSite | backend/src/services/S3Service.ts:183-187 | the bulk pattern accepts any non-empty digit-run site with the trigger's type and date |
| S3Service.BulkMatchIsOutputName | backend/src/services/S3Service.ts:183-187 | everything the bulk pattern accepts is an output name with a digit-run site and a valid timestamp |
| S3Service.MonthlyOutputNameShape | backend/src/services/S3Service.ts:203-211 | a monthly output matches iff its day is two digits and its year-month is the trigger's first six characters |
| S3Service.MonthlyMatchesItsMonthOnly | backend/src/services/S3Service.ts:203-211 | for a six-character year-month, outputs of any numeric id and day of that month match, and no other month |
| S3Service.MatchesSite | backend/src/services/S3Service.ts:189-195 | the single pattern `^{type}_{site}_\d{8}T\d{6}_{date}\.txt$` as a test on the name; characterised by `SingleMatchesExactly` and `SingleMatchIsOutputName` |
| S3Service.MatchesBulk | backend/src/services/S3Service.ts:183-187 | the bulk pattern, any digit-run site; characterised by `BulkMatchesAnyDigitSite` and `BulkMatchIsOutputName` |
| S3Service.MatchesRange | backend/src/services/S3Service.ts:196-200 | the range pattern, start or end date only; characterised by `RangeMatchesBoundariesOnly` |
| S3Service.MatchesMonthly | backend/src/services/S3Service.ts:203-211 | the monthly pattern for the trigger's year and month; characterised by `MonthlyOutputNameShape` and `MonthlyMatchesItsMonthOnly` |
| S3Service.IsMatchingOutputFile | backend/src/services/S3Service.ts:174-215 | no trigger or an unknown service type matches nothing, GSAP-EOD dispatches on the pattern kind, GSAP-Monthly uses the monthly pattern; its cases are the four rows above and `UnparseableTriggerMatchesNothing` |
| S3Service.FilterMatching | backend/src/services/S3Service.ts:102-105 | the kept files are an order-preserving sub-list; a file is kept iff its base name matches, and each matching file as often as it is listed |
| S3Service.FindMatchingOutputFiles | backend/src/services/S3Service.ts:90-106 | an unparseable trigger matches nothing; otherwise the matching sub-list of the listing, each matching file as often as it is listed |
| S3Service.LatestFrom | backend/src/services/S3Service.ts:67-69 | the reduce gives an upper bound of every file's time that is the start value or one of the times |
| S3Service.GeneratedAt | backend/src/services/S3Service.ts:66-70 | absent exactly when there are no matches; otherwise the maximum `lastModified` of the matches |
| S3Service.MonitorOutputFiles | backend/src/services/S3Service.ts:42-72 | echoes trigger and service, holds the matching sub-list with every matching file as often as it is listed, and its time is their maximum or absent when empty |
| S3Service.UnparseableTriggerMatchesNothing | backend/src/services/S3Service.ts:98-100 | an unparseable trigger gives an empty match and no time, without an error |
| S3Service.MessageOr | backend/src/controllers/CloudServiceController.ts:81 | a present non-empty message, else the fallback |
| S3Service.UploadErrorText | backend/src/services/S3Service.ts:37 | the failure text is the thrown message when it has a non-empty one, and `Upload failed` otherwise, so never empty |
| S3Service.UploadTriggerFile | backend/src/services/S3Service.ts:7-40 | success iff the store wrote the object; the path is `s3://{bucket}/{importPath}/{fileName}` either way; an error text is present exactly on failure, and it is the store failure's text by `UploadErrorText` |
| S3Service.UploadPathIndependentOfOutcome | backend/src/services/S3Service.ts:28-35 | success and failure report the same path, whose last segment is the file name |
| TriggerPipeline.SingleTriggerRoundTrip | backend/src/services/FileGeneratorService.ts:33-34 | a generated single trigger parses back to its type, site and date |
| TriggerPipeline.RangeTriggerRoundTrip | backend/src/services/FileGeneratorService.ts:35-36 | a generated range trigger parses back to its type, site, start and end date |
| TriggerPipeline.BulkTriggerRoundTrip | backend/src/services/FileGeneratorService.ts:37-38 | a generated bulk trigger parses back to its type and date |
| TriggerPipeline.MonthlyTriggerRoundTrip | backend/src/services/FileGeneratorService.ts:55-59 | a generated monthly trigger parses back to its site and year plus padded month |
| TriggerPipeline.SingleTriggerFindsItsOutputs | backend/src/services/S3Service.ts:190-195 | the outputs recognised for a generated single trigger are the site's files of exactly that date |
| TriggerPipeline.RangeTriggerFindsBoundaryOutputs | backend/src/services/S3Service.ts:196-200 | for a generated range trigger, only outputs dated on the first or last day are recognised |
| TriggerPipeline.BulkTriggerFindsEverySite | backend/src/services/S3Service.ts:183-187 | a generated bulk trigger is answered by the files of every numeric site of its date |
| TriggerPipeline.MonthlyTriggerFindsItsMonth | backend/src/services/S3Service.ts:203-211 | a generated monthly trigger is answered by dip files of its month only, whatever the site |
| CloudServiceController.EodFieldError | backend/src/controllers/CloudServiceController.ts:19-51 | no error iff the four common fields and the type's fields are present; a missing common field is reported first |
| CloudServiceController.EodDecision | backend/src/controllers/CloudServiceController.ts:15-67 | 400 iff a field check fails, 401 iff fields pass and credentials are missing, otherwise proceed to `{sftpUser}/Import/EODSales` |
| CloudServiceController.EodPut | backend/src/controllers/CloudServiceController.ts:64-74 | an object is written iff the guards pass and the type is known, with the generator's name, body and key |
| CloudServiceController.GenerateEod | backend/src/controllers/CloudServiceController.ts:15-84 | 400, 401 and 500 (unknown type, with the generator's message) each exactly in their case; otherwise 200 with the upload result |
| CloudServiceController.EodUploadKeyIsGeneratorPath | backend/src/controllers/CloudServiceController.ts:64-74 | the key written is the generator's `s3Path`, and the reported path names it |
| CloudServiceController.EodFieldsCheckedBeforeCredentials | backend/src/controllers/CloudServiceController.ts:53-61 | a request failing a field check gets the same answer with or without credentials |
| CloudServiceController.CompleteEodRequestIsUploaded | backend/src/controllers/CloudServiceController.ts:15-74 | complete fields, a known type and credentials always lead to an upload |
| CloudServiceController.MonthlyDecision | backend/src/controllers/CloudServiceController.ts:90-113 | 400 iff a field is missing, 401 iff fields pass without credentials, otherwise `{sftpUser}/Import/FuelMonthEndDips` |
| CloudServiceController.MonthlyPut | backend/src/controllers/CloudServiceController.ts:109-120 | an empty object under the generator's key is written iff the guards pass |
| CloudServiceController.GenerateMonthly | backend/src/controllers/CloudServiceController.ts:86-130 | an error exactly when a guard rejects; otherwise the upload reply for the generated name in the user's FuelMonthEndDips import folder, success iff stored |
| CloudServiceController.ExportPath | backend/src/controllers/CloudServiceController.ts:153-165 | GSAP-EOD and GSAP-Monthly map to their export folders; every other type has none |
| CloudServiceController.MonitorDecision | backend/src/controllers/CloudServiceController.ts:134-165 | missing parameters give 400, then missing credentials 401, then an unknown service 400, else the export folder |
| CloudServiceController.Monitor | backend/src/controllers/CloudServiceController.ts:132-183 | a rejected request gets its guard's answer; a listing gives the match result; a thrown listing gives 500 with its message or "Internal server error" |
| CloudServiceController.MonitoredServiceTypeIsKnown | backend/src/controllers/CloudServiceController.ts:153-165 | a request the guards let through has a service type the matcher knows |
| CloudServiceController.ContentDecision | backend/src/controllers/CloudServiceController.ts:187-204 | 400 iff bucket or path is missing, 401 iff they are present without credentials, else the file |
| CloudServiceController.GetFileContent | backend/src/controllers/CloudServiceController.ts:185-220 | the guard's answer, the downloaded content, or 500 with the message |
| CloudServiceController.ListDecision | backend/src/controllers/CloudServiceController.ts:224-241 | 400 iff bucket or folder is missing, 401 iff they are present without credentials, else the folder |
| CloudServiceController.ListOutputFiles | backend/src/controllers/CloudServiceController.ts:222-257 | the guard's answer, the listed files unchanged, or 500 with the message |
| CredentialParser.IndexOfFrom | frontend/src/hooks/useCredentialParser.ts:51 | the first `=` at or after a position, or the end: where `[^=]+` stops |
| CredentialParser.SpaceRun | frontend/src/hooks/useCredentialParser.ts:16 | the maximal white-space run `\s+` consumes |
| CredentialParser.LineRun | frontend/src/hooks/useCredentialParser.ts:16-51 | the maximal run without line terminators `.+` consumes |
| CredentialParser.DirectMatch | frontend/src/hooks/useCredentialParser.ts:51 | a match of `([^=]+)=(.+)` has a non-empty key without `=` and a non-empty value |
| CredentialParser.ExportSearch | frontend/src/hooks/useCredentialParser.ts:16 | the leftmost match of `export\s+([^=]+)=(.+)` has a non-empty key without `=` |
| CredentialParser.StripQuotes | frontend/src/hooks/useCredentialParser.ts:22-25 | a value wrapped in the same quote loses one character at each end; a lone quote becomes empty; any other value is kept |
| CredentialParser.KeyOf | frontend/src/hooks/useCredentialParser.ts:27-45 | a recognised key is exactly one of the switch's variable names |
| CredentialParser.Assign | frontend/src/hooks/useCredentialParser.ts:63-81 | an unrecognised key leaves the partial profile unchanged |
| CredentialParser.ParseCredentials | frontend/src/hooks/useCredentialParser.ts:7-87 | the line loop computes `Parsed(text)`, the left-to-right application of every line; the profiles page's own copy of the function (lines 61-141 of its page) is identical and is this member |
| CredentialParser.CredentialTextBox.constructor | frontend/src/hooks/useCredentialParser.ts:5 | the hook starts with an empty text box |
| CredentialParser.CredentialTextBox.SetCredentialText | frontend/src/hooks/useCredentialParser.ts:5 | the text box holds exactly what was typed |
| CredentialParser.CredentialTextBox.Reset | frontend/src/hooks/useCredentialParser.ts:89-91 | `reset` empties the text box |
| CredentialParser.CommentLineIgnored | frontend/src/hooks/useCredentialParser.ts:50 | a line whose trim starts with `#` contributes nothing |
| CredentialParser.LineWithoutAssignmentIgnored | frontend/src/hooks/useCredentialParser.ts:15-50 | a line without `=` contributes nothing |
| CredentialParser.ExportPrefixedKeyIgnored | frontend/src/hooks/useCredentialParser.ts:50-63 | the key `export K` the plain branch reads from an export line is never one the switch acts on |
| CredentialParser.ApplyDirectLine | frontend/src/hooks/useCredentialParser.ts:49-83 | `K=V` performs K's arm of the switch with V trimmed and unquoted |
| CredentialParser.ApplyExportLine | frontend/src/hooks/useCredentialParser.ts:14-47 | `export K=V` performs the same arm |
| CredentialParser.ExportSameAsDirect | frontend/src/hooks/useCredentialParser.ts:14-83 | `export K=V` and `K=V` have the same effect |
| CredentialParser.DirectKeySetsField | frontend/src/hooks/useCredentialParser.ts:64-75 | each variable but the default region sets its one field, whatever it held, and nothing else |
| CredentialParser.LaterLineWins | frontend/src/hooks/useCredentialParser.ts:11-84 | an assignment on the next line to the same variable overrides the earlier one |
| CredentialParser.DefaultRegionFillsOnlyUnset | frontend/src/hooks/useCredentialParser.ts:76-80 | `AWS_DEFAULT_REGION` sets the region only while it is absent or empty |
| CredentialParser.RegionTakesPrecedence | frontend/src/hooks/useCredentialParser.ts:73-80 | a non-empty `AWS_REGION` decides the region before or after `AWS_DEFAULT_REGION` |
| CredentialParser.ApplyLinesConcat | frontend/src/hooks/useCredentialParser.ts:11 | the loop over two stretches of lines is the loop over the first, then the second |
| CredentialParser.ParsedContinues | frontend/src/hooks/useCredentialParser.ts:8-11 | text after a newline is parsed from the result of the text before it |
| CredentialParser.EmptyTextParsesToNothing | frontend/src/hooks/useCredentialParser.ts:9-86 | empty text gives a profile with no field set |
| CredentialParser.ApplyLine | frontend/src/hooks/useCredentialParser.ts:12-83 | one loop iteration on a trimmed line: the export branch, else the direct branch for a non-comment line with `=`; characterised by `ApplyExportLine`, `ApplyDirectLine`, `CommentLineIgnored`, `LineWithoutAssignmentIgnored` and `ExportSameAsDirect` |
| CredentialParser.ApplyLines | frontend/src/hooks/useCredentialParser.ts:11-84 | the loop over the lines in order; `ApplyLinesConcat` and `LaterLineWins` state how it composes |
| CredentialParser.Parsed | frontend/src/hooks/useCredentialParser.ts:8-84 | the credentials the loop leaves for the text split at newlines; `ParseCredentials` computes it, `ParsedContinues` and `EmptyTextParsesToNothing` describe it |
| ProfileStore.Find | frontend/src/contexts/AWSProfileContext.tsx:155 | nothing iff no profile has the id; otherwise a profile of the list with that id |
| ProfileStore.FindIsFirst | frontend/src/contexts/AWSProfileContext.tsx:155 | the profile found is the first in the list with the id |
| ProfileStore.NewProfile | frontend/src/contexts/AWSProfileContext.tsx:72-78 | the new profile has the given id, is active iff it is the first, carries no verdict and both dates are now |
| ProfileStore.Updated | frontend/src/contexts/AWSProfileContext.tsx:105 | supplied fields override, the id is the update's, `updatedAt` is now, and everything else is kept |
| ProfileStore.UpdateAll | frontend/src/contexts/AWSProfileContext.tsx:103-107 | same length and ids; profiles with another id unchanged, those with the id updated |
| ProfileStore.WithValidation | frontend/src/contexts/AWSProfileContext.tsx:200 | records the verdict and its time and changes nothing else |
| ProfileStore.ValidateAll | frontend/src/contexts/AWSProfileContext.tsx:198-202 | only the profiles with the id gain the verdict |
| ProfileStore.Remove | frontend/src/contexts/AWSProfileContext.tsx:130 | an order-preserving sub-list holding exactly the profiles with another id, each as often as before |
| ProfileStore.LoadedActive | frontend/src/contexts/AWSProfileContext.tsx:44-52 | with stored profiles and a stored id, the first stored profile with that id or none; otherwise unchanged |
| ProfileStore.FindAfterUpdate | frontend/src/contexts/AWSProfileContext.tsx:113-116 | after an update the id finds the updated form of what it found before |
| ProfileStore.UpdateUnknownIdChangesNothing | frontend/src/contexts/AWSProfileContext.tsx:103-107 | an update of an id no profile has changes nothing |
| ProfileStore.UpdateKeepsOther | frontend/src/contexts/AWSProfileContext.tsx:103-107 | a profile with another id survives an update unchanged |
| ProfileStore.UpdateStillFinds | frontend/src/contexts/AWSProfileContext.tsx:113-116 | an id some profile holds is still found after updating it |
| ProfileStore.FindAfterValidation | frontend/src/contexts/AWSProfileContext.tsx:198-210 | after a validation the id finds its profile with the verdict |
| ProfileStore.ValidateKeepsProfile | frontend/src/contexts/AWSProfileContext.tsx:198-202 | every profile stays in the list, with the verdict exactly when it has the id |
| ProfileStore.FindOtherAfterRemove | frontend/src/contexts/AWSProfileContext.tsx:130 | deleting an id leaves what every other id finds unchanged |
| ProfileStore.RemoveIdempotent | frontend/src/contexts/AWSProfileContext.tsx:130 | deleting twice is deleting once |
| ProfileStore.RemoveLength | frontend/src/contexts/AWSProfileContext.tsx:130 | deletion never grows the list, and deleting an absent id keeps it |
| ProfileStore.ProfileContext.constructor | frontend/src/contexts/AWSProfileContext.tsx:35-57 | mounting loads the stored profiles (none when absent) and the stored active profile |
| ProfileStore.ProfileContext.Load | frontend/src/contexts/AWSProfileContext.tsx:39-57 | reloading keeps the profiles when storage has none and picks the active profile by the stored id |
| ProfileStore.ProfileContext.Create | frontend/src/contexts/AWSProfileContext.tsx:67-96 | appends; into an empty list the new profile becomes active and its id is stored; otherwise the active profile is kept |
| ProfileStore.ProfileContext.Update | frontend/src/contexts/AWSProfileContext.tsx:98-123 | rewrites the matching profiles and saves them; an active profile with that id is refreshed |
| ProfileStore.ProfileContext.Delete | frontend/src/contexts/AWSProfileContext.tsx:125-151 | removes the id; deleting the active profile hands over to the first remaining one, or none with the stored id removed |
| ProfileStore.ProfileContext.SetActive | frontend/src/contexts/AWSProfileContext.tsx:153-166 | fails with "Profile not found" iff no profile has the id, changing only the error; otherwise that profile becomes active and its id stored |
| ProfileStore.ProfileContext.RecordValidation | frontend/src/contexts/AWSProfileContext.tsx:168-219 | an unknown id, no answer or a non-2xx answer fails and sets only the error; a verdict is recorded on the list and on the active copy |
| AwsProfilesPage.MergeParsed | frontend/src/app/aws-profiles/page.tsx:145-149 | each parsed field replaces the form's, the name is untouched, and the region changes only to a non-empty parsed one |
| AwsProfilesPage.EditFormOf | frontend/src/app/aws-profiles/page.tsx:200-210 | the edit form holds the profile's fields, with a missing session token shown as empty |
| AwsProfilesPage.Toggled | frontend/src/app/aws-profiles/page.tsx:235-240 | the given switch flips (absent reads as off) and every other switch is kept |
| AwsProfilesPage.MaskedAccessKey | frontend/src/app/aws-profiles/page.tsx:675 | four stars followed by the last four characters, or the whole key when shorter |
| AwsProfilesPage.MergeNothingKeepsForm | frontend/src/app/aws-profiles/page.tsx:143-149 | a paste that yields nothing leaves the form as it was |
| AwsProfilesPage.MergeIdempotent | frontend/src/app/aws-profiles/page.tsx:143-149 | pasting the same text twice fills the form as pasting it once |
| AwsProfilesPage.PastedRegionFillsForm | frontend/src/app/aws-profiles/page.tsx:143-149 | a pasted `AWS_REGION` line with a non-empty value sets the form's region to that value |
| AwsProfilesPage.ToggleTwiceRestores | frontend/src/app/aws-profiles/page.tsx:235-240 | toggling twice restores every switch's reading |
| AwsProfilesPage.EditUnchangedKeepsProfile | frontend/src/app/aws-profiles/page.tsx:182-210 | saving an untouched edit form only rewrites the change date, except that a missing token is saved as empty |
| AwsProfilesPage.ProfilesPage.constructor | frontend/src/app/aws-profiles/page.tsx:36-59 | the page opens with empty forms, empty paste boxes, no editing, the create form and parsers closed and every secret masked |
| AwsProfilesPage.ProfilesPage.ParseCreateCredentials | frontend/src/app/aws-profiles/page.tsx:143-152 | the create form is merged with the parse, the box is emptied and the create parser hidden |
| AwsProfilesPage.ProfilesPage.ParseEditCredentials | frontend/src/app/aws-profiles/page.tsx:154-163 | the edit form is merged with the parse, keeping its id; the box is emptied and the edit parser hidden |
| AwsProfilesPage.ProfilesPage.CreateFinished | frontend/src/app/aws-profiles/page.tsx:165-180 | a successful create resets the form to empty fields with region `us-east-1` and closes it |
| AwsProfilesPage.ProfilesPage.EditFinished | frontend/src/app/aws-profiles/page.tsx:182-198 | a successful edit ends editing and resets the edit form |
| AwsProfilesPage.ProfilesPage.StartEditing | frontend/src/app/aws-profiles/page.tsx:200-210 | the edit form is filled from the profile, which becomes the one being edited |
| AwsProfilesPage.ProfilesPage.CancelEditing | frontend/src/app/aws-profiles/page.tsx:212-222 | editing ends and the edit form is reset |
| AwsProfilesPage.ProfilesPage.ToggleShowSecret | frontend/src/app/aws-profiles/page.tsx:235-240 | only the switch map changes, by `Toggled` |
| UploadHistory.Prepend | frontend/src/app/cloud-services/gsap-eod/page.tsx:107-109 | the new item comes first, followed by the old history cut so that at most 100 entries remain |
| UploadHistory.PrependWithRoom | frontend/src/app/cloud-services/gsap-monthly/page.tsx:88-90 | below 100 entries nothing is lost |
| UploadHistory.LaterUploadListedFirst | frontend/src/app/cloud-services/gsap-eod/page.tsx:133-135 | of two uploads recorded in turn, the later is first and the earlier second |
| UploadHistory.HistoryStaysBounded | frontend/src/app/cloud-services/gsap-monthly/page.tsx:114-116 | however many uploads are recorded, at most 100 entries remain, the latest first |
| UploadHistory.HistoryStorage.constructor | frontend/src/app/cloud-services/history/page.tsx:80-81 | the storage entry holds what was stored |
| UploadHistory.HistoryStorage.Record | frontend/src/app/cloud-services/gsap-eod/page.tsx:107-135 | the stored list becomes `Prepend(item, old list)` |
| UploadHistory.HistoryStorage.Clear | frontend/src/app/cloud-services/history/page.tsx:94 | the stored list is emptied |
| GsapEodPage.Today | frontend/src/app/cloud-services/gsap-eod/page.tsx:38 | today's date text holds no dash |
| GsapEodPage.TodayOfIsoTime | frontend/src/app/cloud-services/gsap-eod/page.tsx:38 | the ISO time `YYYY-MM-DDT...` gives `YYYYMMDD` |
| GsapEodPage.DateInput | frontend/src/app/cloud-services/gsap-eod/page.tsx:317-410 | a stored date is the input with every dash removed and every other character kept, in order; a dash-free input is stored as typed |
| GsapEodPage.PreviewFileName | frontend/src/app/cloud-services/gsap-eod/page.tsx:37-50 | empty iff the type is not single, range or bulk; otherwise `Generate_{serviceType}_…txt` |
| GsapEodPage.PreviewOfEmptyDates | frontend/src/app/cloud-services/gsap-eod/page.tsx:37-48 | an empty date field is replaced by today in the single, range and bulk names |
| GsapEodPage.EodS3Path | frontend/src/app/cloud-services/gsap-eod/page.tsx:52-54 | the EODSales import folder of the bucket and user, with `bucket-name` for an empty bucket and `sftp-user` for an empty user |
| GsapEodPage.BulkSiteList | frontend/src/app/cloud-services/gsap-eod/page.tsx:78 | the non-blank lines, untrimmed, in order and each as often as it occurs; empty iff the whole text is blank |
| GsapEodPage.BuildRequest | frontend/src/app/cloud-services/gsap-eod/page.tsx:69-80 | the common fields, and each type-specific field present exactly for the types that use it |
| GsapEodPage.SuccessItemAsWritten | frontend/src/app/cloud-services/gsap-eod/page.tsx:94-105 | the entry as written carries the form's service type (`EODSales` or `POSSales`) |
| GsapEodPage.SuccessItem | frontend/src/app/cloud-services/gsap-eod/page.tsx:94-105 | the corrected entry: GSAP-EOD, with the backend's name, path and time |
| GsapEodPage.FailureItemAsWritten | frontend/src/app/cloud-services/gsap-eod/page.tsx:117-131 | the failed entry as written carries the form's service type, with the error, the previewed name, and the previewed path plus name |
| GsapEodPage.FailureItem | frontend/src/app/cloud-services/gsap-eod/page.tsx:117-131 | the corrected failed entry: GSAP-EOD, otherwise the entry as written |
| GsapEodPage.FormValidIffFieldsAccepted | frontend/src/app/cloud-services/gsap-eod/page.tsx:141-154 | for a known type, the button is enabled iff the backend's field checks pass on the request sent |
| GsapEodPage.IsFormValid | frontend/src/app/cloud-services/gsap-eod/page.tsx:141-154 | user and bucket set, and the fields of the chosen generation type set; `FormValidIffFieldsAccepted` ties it to the backend's checks |
| GsapEodPage.ValidPreviewIsGeneratedName | frontend/src/app/cloud-services/gsap-eod/page.tsx:37-50 | the preview of a valid form is the name the backend generates |
| GsapEodPage.FailurePathIsBackendPath | frontend/src/app/cloud-services/gsap-eod/page.tsx:123 | for a valid form the failure entry's path is the path the backend reports |
| GsapEodPage.RangeFormRoundTrips | frontend/src/app/cloud-services/gsap-eod/page.tsx:364-375 | a valid range form's trigger parses back to exactly its range |
| GsapEodPage.BulkFormSendsItsSites | frontend/src/app/cloud-services/gsap-eod/page.tsx:76-79 | a valid bulk form generates a body of its non-blank lines joined by newlines |
| GsapEodPage.AsWrittenUploadIsNotListedAsEod | frontend/src/app/cloud-services/gsap-eod/page.tsx:97-122 | as written, neither a successful nor a failed end-of-day entry is listed or counted under GSAP-EOD |
| GsapEodPage.UploadIsListedAsEod | frontend/src/app/cloud-services/history/page.tsx:60-233 | the corrected entry heads the GSAP-EOD listing and is counted there |
| GsapEodPage.EodPage.constructor | frontend/src/app/cloud-services/gsap-eod/page.tsx:25-35 | the form starts at single, EODSales and empty fields, with no result shown |
| GsapEodPage.EodPage.SetDate | frontend/src/app/cloud-services/gsap-eod/page.tsx:317-410 | the date field is the input without dashes; nothing else changes |
| GsapEodPage.EodPage.SetStartDate | frontend/src/app/cloud-services/gsap-eod/page.tsx:364 | the same for the start date |
| GsapEodPage.EodPage.SetEndDate | frontend/src/app/cloud-services/gsap-eod/page.tsx:375 | the same for the end date |
| GsapEodPage.EodPage.GenerateAndUpload | frontend/src/app/cloud-services/gsap-eod/page.tsx:56-139 | without a profile a message and no request; otherwise the request sent, the result shown, and the corrected success or failure entry recorded |
| GsapMonthlyPage.PreviewFileName | frontend/src/app/cloud-services/gsap-monthly/page.tsx:29-33 | empty iff site, year or month is empty; otherwise `Generate_FuelMonthEndDips_…txt` |
| GsapMonthlyPage.MonthlyS3Path | frontend/src/app/cloud-services/gsap-monthly/page.tsx:35-37 | the FuelMonthEndDips import folder of the bucket and user, with `bucket-name` for an empty bucket and `sftp-user` for an empty user |
| GsapMonthlyPage.BuildRequest | frontend/src/app/cloud-services/gsap-monthly/page.tsx:55-61 | the request carries the five fields as they stand |
| GsapMonthlyPage.PreviousMonth | frontend/src/app/cloud-services/gsap-monthly/page.tsx:295-297 | a month from 1 to 12 that is exactly one month earlier in the calendar, so January goes to December of the year before |
| GsapMonthlyPage.SuccessItem | frontend/src/app/cloud-services/gsap-monthly/page.tsx:75-86 | a successful entry under GSAP-Monthly, type "monthly", with the backend's name, path and time and the site always recorded |
| GsapMonthlyPage.FailureItem | frontend/src/app/cloud-services/gsap-monthly/page.tsx:100-112 | a failed entry with the error, the preview name, the preview path plus name and the current time |
| GsapMonthlyPage.FormValidIffFieldsAccepted | frontend/src/app/cloud-services/gsap-monthly/page.tsx:122-124 | the button is enabled iff the backend's field check passes |
| GsapMonthlyPage.IsFormValid | frontend/src/app/cloud-services/gsap-monthly/page.tsx:122-124 | all five fields set; `FormValidIffFieldsAccepted` ties it to the backend's check |
| GsapMonthlyPage.PreviewIsGeneratedName | frontend/src/app/cloud-services/gsap-monthly/page.tsx:29-33 | with site, year and month filled in, the preview is the generated name |
| GsapMonthlyPage.FailurePathIsBackendPath | frontend/src/app/cloud-services/gsap-monthly/page.tsx:104 | for a valid form the failure entry's path is the path the backend reports |
| GsapMonthlyPage.QuickFillMonthPadsToTwoDigits | frontend/src/app/cloud-services/gsap-monthly/page.tsx:286-299 | a quick-filled month pads to its two decimal digits |
| GsapMonthlyPage.QuickFillFormRoundTrips | frontend/src/app/cloud-services/gsap-monthly/page.tsx:284-300 | a quick-filled form's trigger parses back to its site and six-digit year-month |
| GsapMonthlyPage.UploadIsListedAsMonthly | frontend/src/app/cloud-services/gsap-monthly/page.tsx:78-103 | both monthly entries are kept by the history page's GSAP-Monthly filter |
| GsapMonthlyPage.MonthlyPage.constructor | frontend/src/app/cloud-services/gsap-monthly/page.tsx:21-27 | the form starts empty with no result shown |
| GsapMonthlyPage.MonthlyPage.UseCurrentMonth | frontend/src/app/cloud-services/gsap-monthly/page.tsx:39-287 | year and one-based month of the clock as decimal text; nothing else changes |
| GsapMonthlyPage.MonthlyPage.UsePreviousMonth | frontend/src/app/cloud-services/gsap-monthly/page.tsx:294-300 | year and month of `PreviousMonth` of the clock's month as decimal text |
| GsapMonthlyPage.MonthlyPage.ClearForm | frontend/src/app/cloud-services/gsap-monthly/page.tsx:306-312 | site, year and month emptied; user, bucket and result kept |
| GsapMonthlyPage.MonthlyPage.GenerateAndUpload | frontend/src/app/cloud-services/gsap-monthly/page.tsx:42-120 | without a profile a message and no request; otherwise the request sent, the result shown, and a success or failure entry recorded |
| HistoryPage.Visible | frontend/src/app/cloud-services/history/page.tsx:46-72 | an order-preserving sub-list holding exactly the items that pass the three filters, each as often as in the history |
| HistoryPage.FilterHistory | frontend/src/app/cloud-services/history/page.tsx:46-72 | the three conditional filter steps compute `Visible` |
| HistoryPage.NewestFirst | frontend/src/app/cloud-services/history/page.tsx:83-85 | a rearrangement of the stored items with upload times descending |
| HistoryPage.NoFilterShowsEverything | frontend/src/app/cloud-services/history/page.tsx:46-72 | no search term and both filters on `all` show the whole history |
| HistoryPage.CountsAddUp | frontend/src/app/cloud-services/history/page.tsx:192-219 | the successful and failed counts add up to the total |
| HistoryPage.StatusFiltersSplitTheList | frontend/src/app/cloud-services/history/page.tsx:65-69 | the success and failed filters split the list the other filters show |
| HistoryPage.LoadingSortedHistoryKeepsIt | frontend/src/app/cloud-services/history/page.tsx:83-85 | an already newest-first history keeps its order |
| HistoryPage.MatchesSearch | frontend/src/app/cloud-services/history/page.tsx:51-56 | a case-insensitive substring test on file name, bucket, SFTP user, or a present site id; `SearchIgnoresCase` states the case-insensitivity |
| HistoryPage.SearchIgnoresCase | frontend/src/app/cloud-services/history/page.tsx:51-56 | a search term and its lower-cased form keep the same items |
| HistoryPage.Kept | frontend/src/app/cloud-services/history/page.tsx:46-72 | an item passes each filter that is set; `Visible` keeps exactly these items and `FilterHistory` computes `Visible` |
| HistoryPage.SuccessCount | frontend/src/app/cloud-services/history/page.tsx:205 | the number of successful entries; `CountsAddUp` relates it to `FailedCount` |
| HistoryPage.FailedCount | frontend/src/app/cloud-services/history/page.tsx:219 | the number of failed entries; with `SuccessCount` it adds up to the total (`CountsAddUp`) |
| HistoryPage.EodCount | frontend/src/app/cloud-services/history/page.tsx:233 | the number of entries filed under `GSAP-EOD`; `AsWrittenUploadIsNotListedAsEod` and `UploadIsListedAsEod` state what it counts |
| HistoryPage.HistoryView.constructor | frontend/src/app/cloud-services/history/page.tsx:34-44 | mounting shows the stored history newest first with no filter |
| HistoryPage.HistoryView.Load | frontend/src/app/cloud-services/history/page.tsx:78-90 | the history is reread newest first and the shown list is refiltered |
| HistoryPage.HistoryView.SetSearchTerm | frontend/src/app/cloud-services/history/page.tsx:36-76 | the term changes and the shown list follows |
| HistoryPage.HistoryView.SetServiceFilter | frontend/src/app/cloud-services/history/page.tsx:37-76 | the service filter changes and the shown list follows |
| HistoryPage.HistoryView.SetStatusFilter | frontend/src/app/cloud-services/history/page.tsx:38-76 | the status filter changes and the shown list follows |
| HistoryPage.HistoryView.ClearHistory | frontend/src/app/cloud-services/history/page.tsx:92-98 | once confirmed, storage, the history and the shown list are empty; otherwise nothing changes |
| OutputsPage.NextSortOrder | frontend/src/app/cloud-services/outputs/page.tsx:210-213 | the sort cycles none → newest first (`desc`) → oldest first (`asc`) → none; every click changes it |
| OutputsPage.SortedFiles | frontend/src/app/cloud-services/outputs/page.tsx:215-230 | `none` returns the listing; ascending and descending return a rearrangement ordered by modification time |
| OutputsPage.ExportPathFor | frontend/src/app/cloud-services/outputs/page.tsx:142-144 | the end-of-day export folder for GSAP-EOD, the monthly one otherwise |
| OutputsPage.NoMatch | frontend/src/app/cloud-services/outputs/page.tsx:117-122 | a failed monitor shows the trigger and service with no outputs and no time |
| OutputsPage.ContentError | frontend/src/app/cloud-services/outputs/page.tsx:188 | the viewer's error text: the prefix and the error's message, or "Unknown error" |
| OutputsPage.DownloadName | frontend/src/app/cloud-services/outputs/page.tsx:274 | never empty; a path without `/` is its own name |
| OutputsPage.DownloadOfFolderIsDefault | frontend/src/app/cloud-services/outputs/page.tsx:274 | a selection ending in `/` downloads as `file.txt` |
| OutputsPage.SortCycleHasPeriodThree | frontend/src/app/cloud-services/outputs/page.tsx:210-213 | three clicks restore the order and two do not |
| OutputsPage.SortingIsIdempotent | frontend/src/app/cloud-services/outputs/page.tsx:215-230 | sorting a sorted listing the same way changes nothing |
| OutputsPage.PageExportPathIsBackendExportPath | frontend/src/app/cloud-services/outputs/page.tsx:142-144 | for both services the page's folder is the one the backend's monitor reads |
| OutputsPage.ListRequestPassesGuards | frontend/src/app/cloud-services/outputs/page.tsx:129-150 | with a bucket and credentials, the backend's list guards let the page's request through |
| OutputsPage.DownloadKeepsFileName | frontend/src/app/cloud-services/outputs/page.tsx:274 | a file under a folder is downloaded under its own name |
| OutputsPage.OutputMonitor.constructor | frontend/src/app/cloud-services/outputs/page.tsx:43-56 | the page starts on GSAP-EOD with empty fields, no listing, no viewer and no sort |
| OutputsPage.OutputMonitor.ShownFiles | frontend/src/app/cloud-services/outputs/page.tsx:215-230 | the rows `getSortedFiles(allFiles)` gives the listing table when it is rendered (`ListingTableShown`): as listed when unsorted, by ascending or descending modification time otherwise |
| OutputsPage.OutputMonitor.ShownOutputs | frontend/src/app/cloud-services/outputs/page.tsx:449-458 | the rows `getSortedFiles(outputMatch.outputFiles)` gives the outputs table when it is rendered (`OutputsTableShown`): the matches under the same order rule, and nothing before a match |
| OutputsPage.OutputMonitor.OutputsTableShown | frontend/src/app/cloud-services/outputs/page.tsx:410 | the outputs table is rendered for a set trigger file with a match |
| OutputsPage.OutputMonitor.ListingTableShown | frontend/src/app/cloud-services/outputs/page.tsx:493 | the listing table is rendered without a trigger file and with a non-empty listing |
| OutputsPage.OutputMonitor.OneTableAtATime | frontend/src/app/cloud-services/outputs/page.tsx:410-517 | the two tables are never rendered together, and a rendered table has one row per file it covers |
| OutputsPage.OutputMonitor.Monitor | frontend/src/app/cloud-services/outputs/page.tsx:92-126 | called iff profile, bucket, user and trigger are present; shows the answer or `NoMatch`; otherwise nothing changes |
| OutputsPage.OutputMonitor.ListAll | frontend/src/app/cloud-services/outputs/page.tsx:128-159 | called iff profile, bucket and user are present, for `ExportPathFor`; a failure empties the listing |
| OutputsPage.OutputMonitor.ViewFileContent | frontend/src/app/cloud-services/outputs/page.tsx:161-192 | with a profile and bucket the viewer opens on the file with its content or the error text |
| OutputsPage.OutputMonitor.ToggleSort | frontend/src/app/cloud-services/outputs/page.tsx:210-213 | the sort order advances by `NextSortOrder` |
| OutputsPage.OutputMonitor.CloseModal | frontend/src/app/cloud-services/outputs/page.tsx:254-259 | the viewer closes and forgets its file, its content and its loading flag |
| OutputsPage.OutputMonitor.Download | frontend/src/app/cloud-services/outputs/page.tsx:272-285 | a name exactly when content and selection are non-empty, and then `DownloadName` of the selection |

## Left out

- The AWS SDK, STS, `fetch` and the API client are not part of this model. Their outcomes enter as `Call`, `StoreOutcome` and `ValidationReply` parameters.
- HTTP routing, the credential middleware and the dependency container are not part of this model. The credentials a request carries enter as an `Option`.
- Regular-expression semantics: the patterns built from trigger parts are modelled as string predicates that treat those parts as literal text. They do not model what a part holding a metacharacter would match. In the source, a site id or date holding a character such as `(` makes `new RegExp` throw inside the filter as soon as the listing holds a file (backend/src/services/S3Service.ts:101-104), nothing in the service catches it, and the monitor endpoint answers 500 with the error's message (backend/src/controllers/CloudServiceController.ts:132-183); the model instead compares that text literally and answers with the files it matches.
- `toLowerCase` is modelled for ASCII letters only.
- `formatFileSize`, which uses floating-point logarithms and rounding, is not modelled.
- Icons, colours, labels, `formatDate` and `getValidationStatus` only choose what to display and are not modelled.
- React re-render timing, `confirm`, the clipboard, Blob downloads, DOM events and the loading flags are not modelled. `confirm` enters as a boolean.
- JSON parse failures of stored data are not modelled. A stored entry is always well formed.
- ISO time strings and `Date.now()` are both modelled as one integer clock reading, and `new Date(s).getTime()` on a stored time as that integer.
- An entry in an update request that is present but `undefined` is treated as absent.
- `handleValidateProfile`'s spinner state is not modelled. Its store half is `ProfileStore.ProfileContext.RecordValidation`.
- FileGenerator.EodContent: the contract states only when the body is empty. The non-empty bulk body is stated by `FileGenerator.BulkContentLines`.
- HistoryPage.NewestFirst: the order of items with equal upload times is not stated. JavaScript's sort keeps it stable; the model does not promise that.
- OutputsPage.SortedFiles: likewise, the order of files with equal modification times is not stated.
- HistoryPage.HistoryView.Load: an absent storage entry reads as the empty list. The source then keeps the history it already shows.
- GsapEodPage.PreviewFileName: the contract gives the prefix and suffix. The exact name is stated for a valid form by `GsapEodPage.ValidPreviewIsGeneratedName`, and for empty date fields by `GsapEodPage.PreviewOfEmptyDates`.
- GsapMonthlyPage.MonthlyPage.UseCurrentMonth: the clock's month is taken as 0 to 11, which is the range `getMonth()` returns.
- GsapMonthlyPage.PreviousMonth: the month is taken as 1 to 12 for the same reason.

## Findings

| source | as written | input that shows it | evidently intended | confidence | as-written member | corrected member |
|---|---|---|---|---|---|---|
| frontend/src/app/cloud-services/gsap-eod/page.tsx:97,122 | the history entry's `serviceType` is the form's service type; `as 'GSAP-EOD'` is only a type cast, so the stored value is `EODSales` or `POSSales` | any end-of-day upload, say with service type `EODSales`; the history page's GSAP-EOD filter (history/page.tsx:60-62) does not list it, and its GSAP-EOD count (history/page.tsx:233) does not count it | the entry is filed under `GSAP-EOD`, the value the history page and its type declare | not executed | GsapEodPage.AsWrittenUploadIsNotListedAsEod | GsapEodPage.UploadIsListedAsEod |

The page model records the corrected entries (`GsapEodPage.SuccessItem` and `GsapEodPage.FailureItem`). `GsapEodPage.SuccessItemAsWritten` and `GsapEodPage.FailureItemAsWritten` keep the source's behaviour for comparison.
