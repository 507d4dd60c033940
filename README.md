# Meeting ingestion and meeting views, modelled in Dafny

A.R.I.S.E turns a recorded meeting into a stored meeting record. The
`POST /api/transcribe` route takes an uploaded audio file. It gets a transcript
from a speech-to-text service and asks a language model for a JSON breakdown.
It then stores a `Meeting` with nine child collections: tasks, decisions,
questions, insights, deadlines, attendees, follow-ups, risks and agenda items.
Four client components sit around the route:

- the upload panel, with its 24 MiB rule;
- the category card, which shows `snake_case` keys in Title Case;
- the follow-up email dialog;
- the meeting details view.

This project models the route's mapping from the model's reply to the record
passed to `prisma.meeting.create`, the route's request flow and its error
outcomes, and the logic of the four components. It then proves what they
promise.

Files, one module each:

- `wrappers.dfy` (`Wrappers`): `Option` and `Result`.
- `json.dfy` (`Json`): JSON values with JavaScript truthiness (`null`, `false`,
  `0`, `""` falsy; arrays and objects truthy), property access and `x || d`.
- `text.dfy` (`Text`): `s.replace(/\s+/g, c)` on ASCII whitespace, and the
  decimal numeral of an index.
- `transcribe.dfy` (`Transcribe`): the record mapping and `POST`.
- `upload_audio.dfy` (`UploadAudio`): the upload panel, as a class.
- `category_card.dfy` (`CategoryCard`): key and value formatting.
- `email_generator.dfy` (`EmailGenerator`): email texts, file name, and the
  dialog's state, as a class.
- `meeting_details.dfy` (`MeetingDetails`): categories, attendee ids, export
  name.

The route as written has no code-fence stripping, no alternate key
spellings and no fallback record. A reply that does not parse is a 500, like
every other failure after the file check. The route is also a 500 in four
further cases:

- the parsed reply is `null`, because reading a property of `null` throws;
- a collection key holds a truthy value that is not an array, because only
  arrays have `filter`;
- the `audio` form field is a non-empty text field rather than a file,
  because text has no `arrayBuffer`;
- the request body cannot be read as form data, because `request.formData()`
  throws before the file check.

The asynchronous handlers `compressAudio`, `handleTranscribe` and
`handleGenerateEmail` are each split at their `await`. A `Begin...` method
shows the state while the external work runs, and a `Finish...` method takes
that work's result as a parameter.

## Model

| member | source | states |
|---|---|---|
| `Json.Truthy` | app/api/transcribe/route.ts:112 | `null`, `false`, `0` and `""` are falsy; every other value, arrays and objects included, is truthy |
| `Json.FieldOr` | app/api/transcribe/route.ts:112 | `obj[key] \|\| d` is the field when the value is an object holding a truthy field under `key`, and `d` in every other case |
| `Json.Get` | app/api/transcribe/route.ts:112-113 | a key read from a JSON value is defined exactly when the value is an object holding that key, and then it is that key's value |
| `Json.Or` | app/api/transcribe/route.ts:112 | `x \|\| d` keeps a truthy `x` and otherwise gives `d`, so a truthy default always yields a truthy result |
| `Transcribe.IsEntryObject` | app/api/transcribe/route.ts:118 | the object-collection test `x && typeof x === 'object'`: truthy and of type object |
| `Transcribe.IsAgendaItem` | app/api/transcribe/route.ts:184 | the agenda test `item && typeof item === 'string'`: a non-empty string |
| `Transcribe.Filter` | app/api/transcribe/route.ts:118 | every kept entry passes the test and the result is no longer than the input |
| `Transcribe.FilterAppend` | app/api/transcribe/route.ts:117-118 | filtering a concatenation is the concatenation of the filtered parts, so input order is kept |
| `Transcribe.FilterCount` | app/api/transcribe/route.ts:118 | each value that passes is kept exactly as often as it occurs; values that fail (`null`, strings, numbers for object collections) are never kept |
| `Transcribe.FilterKeepsAll` | app/api/transcribe/route.ts:118 | a list whose entries all pass is kept whole |
| `Transcribe.EntryObjectIsObjectOrArray` | app/api/transcribe/route.ts:118 | `x && typeof x === 'object'` holds exactly for objects and arrays, and never for `null` |
| `Transcribe.OptionalDate` | app/api/transcribe/route.ts:104-107 | a date is present only when the field is truthy and parses, and it is then the parsed instant; an unparseable string is never stored |
| `Transcribe.TaskOf` | app/api/transcribe/route.ts:119-123 | description and owner are copied when truthy, else `'No task description'` and `'Unassigned'`; both are never falsy; the due date is present exactly when `due_date` is truthy and parses |
| `Transcribe.DecisionOf` | app/api/transcribe/route.ts:128-131 | description defaults to `'No decision description'`; with no truthy `date` the date is creation time, with one it is the parse result, so absent when unparseable |
| `Transcribe.QuestionOf` | app/api/transcribe/route.ts:136-140 | question, status and answer default to `'No question'`, `'Unanswered'` and `''` |
| `Transcribe.InsightOf` | app/api/transcribe/route.ts:145-148 | insight defaults to `'No insight'` and reference to `''` |
| `Transcribe.DeadlineOf` | app/api/transcribe/route.ts:153-156 | description defaults to `'No deadline description'`; the due date comes from `date`, present exactly when truthy and parseable |
| `Transcribe.AttendeeOf` | app/api/transcribe/route.ts:161-164 | name and role default to `'Unnamed Attendee'` and `'No role specified'` and are never falsy |
| `Transcribe.FollowUpOf` | app/api/transcribe/route.ts:169-172 | description and owner default to `'No follow-up description'` and `'Unassigned'` |
| `Transcribe.RiskOf` | app/api/transcribe/route.ts:177-180 | risk and impact default to `'No risk description'` and `'No impact specified'` |
| `Transcribe.AgendaOf` | app/api/transcribe/route.ts:185-187 | an agenda row's item is the entry's own non-empty string |
| `Transcribe.ArrayEntryDefaults` | app/api/transcribe/route.ts:117-181 | an array entry passes the object filter and becomes a row made only of defaults in every collection |
| `Transcribe.Entries` | app/api/transcribe/route.ts:117 | a missing or falsy collection key gives no entries, an array gives its items, and any other truthy value throws |
| `Transcribe.Rows` | app/api/transcribe/route.ts:116-123 | one row per kept entry, in input order, each made from its own entry |
| `Transcribe.AgendaRows` | app/api/transcribe/route.ts:182-188 | one agenda row per non-empty string entry, in order, holding that string |
| `Transcribe.Storable` | app/api/transcribe/route.ts:110-188 | the reply can be stored exactly when it is not `null` and no collection key holds a truthy value that is not an array |
| `Transcribe.BuildMeeting` | app/api/transcribe/route.ts:110-188 | the record is built exactly when the reply is storable; the transcript is stored verbatim; name, description and summary default as written; each collection holds one row per truthy object or array entry, in order |
| `Transcribe.StoredDefaultsApplied` | app/api/transcribe/route.ts:112-187 | in a stored record no field with a truthy default is falsy, and no agenda item is empty |
| `Transcribe.EmptyReplyDefaults` | app/api/transcribe/route.ts:112-188 | the reply `{}` gives the three scalar defaults, the transcript, and nine empty collections |
| `Transcribe.BobReplyStorable` | app/api/transcribe/route.ts:117-127 | a reply holding only a one-task array and a one-decision array can be stored, and both entries pass the object filter |
| `Transcribe.OneDecisionOneTask` | app/api/transcribe/route.ts:117-131 | one decision and one task owned by Bob with a parseable due date give exactly one decision row and one task row, owned by Bob and dated |
| `Transcribe.Present` | app/api/transcribe/route.ts:22 | the `audio` field passes `!file` when it is a file or a non-empty text field |
| `Transcribe.Configured` | app/api/transcribe/route.ts:27 | `!!process.env.OPENAI_API_KEY` holds when the key is set and non-empty |
| `Transcribe.ReplyText` | app/api/transcribe/route.ts:95 | an absent or empty reply is parsed as `'{}'`; any other reply is parsed as it is |
| `Transcribe.Post` | app/api/transcribe/route.ts:12-209 | a body that cannot be read as form data is a 500 with the generic error; status 400 exactly when the body is readable and no file is given; a missing API key after that is a 500; every other failure is a 500 with the generic error; a meeting is returned exactly when every step succeeds, and it is the built record with the transcript verbatim |
| `UploadAudio.FileSizeMB` | components/UploadAudio.tsx:156-158 | the size in MiB exceeds 24 exactly when the file exists and has more than 25165824 bytes |
| `UploadAudio.CompressionNeeded` | components/UploadAudio.tsx:160 | compression is offered exactly when a file is selected and it exceeds 25165824 bytes |
| `UploadAudio.TranscribeDisabled` | components/UploadAudio.tsx:161-164 | transcribe is disabled exactly when work is running, or when the selection is too large and the compressed copy is missing or too large |
| `UploadAudio.FileToUpload` | components/UploadAudio.tsx:124 | the compressed copy when there is one, else the selection; nothing only when neither exists |
| `UploadAudio.SizeWarningShown` | components/UploadAudio.tsx:245 | the size warning implies that transcribe is disabled, a file is selected and the file to send exceeds the limit |
| `UploadAudio.IdleWarning` | components/UploadAudio.tsx:245 | when idle, the warning shows exactly when both the selection and the file to send exceed the limit |
| `UploadAudio.IdleTranscribeAllowed` | components/UploadAudio.tsx:161-164 | when idle with a selection, and a compressed copy is never larger than its source, transcribe is allowed exactly when the file to send is within the limit |
| `UploadAudio.Uploader.constructor` | components/UploadAudio.tsx:21-24 | the panel starts with no files and nothing running |
| `UploadAudio.Uploader.HandleFileChange` | components/UploadAudio.tsx:46-52 | choosing a file selects it and clears the compressed copy; choosing nothing changes nothing |
| `UploadAudio.Uploader.HandleMonitoredFileSelect` | components/UploadAudio.tsx:54-71 | a fetched monitored file becomes the selection under its name and clears the compressed copy; a failed fetch changes nothing |
| `UploadAudio.Uploader.BeginCompression` | components/UploadAudio.tsx:79-81 | with no selection nothing happens; otherwise compression is marked running on the current selection |
| `UploadAudio.Uploader.FinishCompression` | components/UploadAudio.tsx:82-120 | compression is no longer running; on success the compressed copy is named `compressed_` plus the original name; on failure nothing else changes |
| `UploadAudio.Uploader.BeginTranscribe` | components/UploadAudio.tsx:123-131 | nothing is sent when there is no file; otherwise the file to send goes out under its own name and transcription is marked running |
| `UploadAudio.Uploader.FinishTranscribe` | components/UploadAudio.tsx:132-153 | whether `fetch` resolved or rejected, both files are cleared and transcription is over; the parent is notified exactly when `fetch` got an HTTP answer, a 400 or 500 included, since `response.ok` is never read |
| `CategoryCard.Upper` | components/CategoryCard.tsx:32 | ASCII lower-case letters become upper-case; every other character is unchanged |
| `CategoryCard.Split` | components/CategoryCard.tsx:32-35 | at least one piece; no piece contains the separator; the first piece is the prefix before the first separator; without a separator the string is its only piece |
| `CategoryCard.SplitJoin` | components/CategoryCard.tsx:32 | joining the pieces of a split with the same separator gives back the string |
| `CategoryCard.Join` | components/CategoryCard.tsx:32 | joining pieces that do not contain the separator puts exactly one separator between each two pieces, so it holds one fewer separators than pieces |
| `CategoryCard.Capitalize` | components/CategoryCard.tsx:32 | `word.charAt(0).toUpperCase() + word.slice(1)`: the length is kept, the first character is upper-cased and the rest is unchanged; the empty word stays empty |
| `CategoryCard.CapitalizeAll` | components/CategoryCard.tsx:32 | each word of the list is capitalized in its own place |
| `CategoryCard.FormatKey` | components/CategoryCard.tsx:32 | the label shown for a key is its character-by-character Title Case reading |
| `CategoryCard.TitleCased` | components/CategoryCard.tsx:32 | the character-by-character reading keeps the length and contains no `_` |
| `CategoryCard.FormatKeyTitleCased` | components/CategoryCard.tsx:32 | split on `_`, capitalize and join with spaces equals the character-by-character reading |
| `CategoryCard.TitleCasedAt` | components/CategoryCard.tsx:32 | each character of the reading is a space for `_`, the upper-case letter at a word start, and the same character elsewhere |
| `CategoryCard.FormatKeyAt` | components/CategoryCard.tsx:32 | the formatted key has the key's length and no `_`; each `_` becomes a space; each word's first letter is upper-cased; every other character is unchanged |
| `CategoryCard.TitleCasedOneWord` | components/CategoryCard.tsx:32 | without `_`, only the first character can change |
| `CategoryCard.OneWordKey` | components/CategoryCard.tsx:32 | a key without `_` is only capitalized, so `owner` becomes `Owner` |
| `CategoryCard.FormatKeyIdempotent` | components/CategoryCard.tsx:32 | formatting a formatted key changes nothing |
| `CategoryCard.PieceCount` | components/CategoryCard.tsx:32 | the key splits into one more word than it has `_` |
| `CategoryCard.FormatValue` | components/CategoryCard.tsx:33-36 | a `due_date` string holding `T` shows its prefix before the first `T`; every other value shows unchanged |
| `CategoryCard.RenderItem` | components/CategoryCard.tsx:31-42 | one line per key of the item, in order; each caption is the formatted key and contains no `_`; each value is formatted for its key |
| `CategoryCard.RenderCard` | components/CategoryCard.tsx:25-47 | the placeholder shows exactly when there are no items; otherwise there is one list entry per item, each the rendering of that item |
| `Text.DropSpaces` | components/EmailGenerator.tsx:96 | what is removed is an all-whitespace prefix, and what is left does not start with whitespace |
| `Text.ReplaceSpaceRuns` | components/EmailGenerator.tsx:96 | replacing whitespace runs never lengthens a string |
| `Text.ReplaceNoSpace` | components/EmailGenerator.tsx:96 | with a replacement that is not whitespace, the result has no whitespace at all |
| `Text.ReplaceNoSpaceIdentity` | components/EmailGenerator.tsx:96 | a string without whitespace comes back unchanged |
| `Text.StripDropSpaces` | components/EmailGenerator.tsx:96 | dropping leading whitespace loses no other character |
| `Text.ReplaceKeepsText` | components/EmailGenerator.tsx:96 | apart from whitespace turning into the replacement, every character survives, in order |
| `Text.ReplaceAppend` | components/MeetingDetails.tsx:73 | replacing distributes over a cut after a non-whitespace character |
| `Text.DropSpacesAppend` | components/MeetingDetails.tsx:73 | dropping leading whitespace of a string that is not all whitespace is unaffected by what follows |
| `Text.DropAllSpace` | components/MeetingDetails.tsx:73 | an all-whitespace prefix is dropped entirely |
| `Text.ReplaceLeadingRun` | components/MeetingDetails.tsx:73 | a leading whitespace run becomes one replacement character |
| `Text.RunBecomesOneChar` | components/MeetingDetails.tsx:73 | each maximal whitespace run between text becomes exactly one replacement character, however long it is |
| `Text.Decimal` | components/MeetingDetails.tsx:103 | the numeral of an index is non-empty and made of digits |
| `Text.DecimalRoundTrip` | components/MeetingDetails.tsx:103 | reading the numeral back gives the index |
| `Text.DecimalInjective` | components/MeetingDetails.tsx:103 | distinct indices have distinct numerals |
| `EmailGenerator.DownloadName` | components/EmailGenerator.tsx:96 | the file name is `follow-up-`, the recipient with whitespace runs turned into `-`, and `.txt`; it has no whitespace; it keeps the recipient's other characters; a whitespace-free recipient appears unchanged |
| `EmailGenerator.DownloadNameRun` | components/EmailGenerator.tsx:96 | a whitespace run of any length between text in the recipient becomes exactly one `-` in the file name |
| `EmailGenerator.RecipientRunExample` | components/EmailGenerator.tsx:96 | the recipient `Ann  Lee`, with two spaces, becomes `Ann-Lee`, so the file is `follow-up-Ann-Lee.txt` |
| `EmailGenerator.CopyText` | components/EmailGenerator.tsx:78 | the clipboard text; `CopyRoundTrip` states what can be read back from it |
| `EmailGenerator.DownloadText` | components/EmailGenerator.tsx:91 | the downloaded text; `DownloadRoundTrip` states what can be read back from it |
| `EmailGenerator.TakeLine` | components/EmailGenerator.tsx:78 | a line read from a text contains no line feed |
| `EmailGenerator.TakeLineAppend` | components/EmailGenerator.tsx:78 | a line followed by a line feed is read back exactly |
| `EmailGenerator.After` | components/EmailGenerator.tsx:78 | what remains after a prefix, prefixed again, is the text |
| `EmailGenerator.AfterAppend` | components/EmailGenerator.tsx:78 | a prefix is removed exactly |
| `EmailGenerator.TaggedLineAppend` | components/EmailGenerator.tsx:91 | a tagged line is read back exactly |
| `EmailGenerator.CopyRoundTrip` | components/EmailGenerator.tsx:78 | the clipboard text `Subject: s` then a blank line then the body gives back the one-line subject and the body |
| `EmailGenerator.DownloadRoundTrip` | components/EmailGenerator.tsx:91 | the downloaded text gives back the one-line subject, recipient and date, and the body |
| `EmailGenerator.Generator.constructor` | components/EmailGenerator.tsx:37-41 | the dialog starts closed, with no attendee, no email, not loading and not copied |
| `EmailGenerator.Generator.SetOpen` | components/EmailGenerator.tsx:108 | opening or closing changes only `open` |
| `EmailGenerator.Generator.BeginGenerate` | components/EmailGenerator.tsx:44-57 | loading starts, the attendee is selected, any email is cleared, and the request names the meeting and the attendee's id and name |
| `EmailGenerator.Generator.FinishGenerate` | components/EmailGenerator.tsx:59-72 | loading ends on success and failure alike; the email is set only from an ok answer |
| `EmailGenerator.Generator.Copy` | components/EmailGenerator.tsx:75-86 | with no email nothing happens; otherwise the copy text goes to the clipboard and `copied` is set |
| `EmailGenerator.Generator.CopyTimerElapsed` | components/EmailGenerator.tsx:85 | the timer resets only `copied` |
| `EmailGenerator.Generator.Download` | components/EmailGenerator.tsx:88-105 | a file is offered exactly when there is an email, with the download name and text; the state is unchanged |
| `EmailGenerator.Generator.Back` | components/EmailGenerator.tsx:157-160 | going back clears the email and the selected attendee only |
| `MeetingDetails.Lookup` | components/MeetingDetails.tsx:104-105 | a key read from an item is undefined exactly when no entry has that key; otherwise it is the value of the first entry with that key |
| `MeetingDetails.ItemsOf` | components/MeetingDetails.tsx:53-60 | `breakdown.X \|\| []`: the list under the key, or an empty list when the key is absent |
| `MeetingDetails.Categories` | components/MeetingDetails.tsx:52-61 | exactly eight categories in the fixed order; each holds its breakdown list or an empty one; Deadlines and Attendees span one column and the rest two |
| `MeetingDetails.AttendeeRefs` | components/MeetingDetails.tsx:102-106 | an absent Attendees list throws; otherwise one attendee per entry, in order, with name and role read from that entry and id `AttendeeId(meetingId, index)` |
| `MeetingDetails.AttendeeId` | components/MeetingDetails.tsx:103 | the id is the meeting id, `-`, then the decimal numeral of the index, and that numeral reads back as the index |
| `MeetingDetails.IdsDistinct` | components/MeetingDetails.tsx:103 | ids at distinct positions differ |
| `MeetingDetails.AttendeeIdsDistinct` | components/MeetingDetails.tsx:103 | the attendee ids handed to the email dialog are pairwise distinct |
| `MeetingDetails.MissingAttendeesThrow` | components/MeetingDetails.tsx:102-106 | a breakdown without Attendees makes the mapping throw |
| `MeetingDetails.AttendeeRefsOrEmpty` | components/MeetingDetails.tsx:102-106 | with the default applied before the mapping, a missing list gives no attendees; a present one gives the code's own result; ids stay pairwise distinct |
| `MeetingDetails.ExportName` | components/MeetingDetails.tsx:73 | the export name is the meeting name with whitespace runs turned into `_`, then `_Details.docx`; it has no whitespace; it keeps the name's other characters |
| `MeetingDetails.ExportNameRun` | components/MeetingDetails.tsx:73 | a whitespace run of any length between text in the meeting name becomes exactly one `_` in the export name |

## Left out

- The speech-to-text and chat-completion calls and the OpenAI client are foreign network calls. Their results are the `transcript` and `reply` fields of `Transcribe.Collaborators`.
- Staging the upload on disk, including the `Date.now()-name` file name, is I/O. Only whether it succeeded is modelled.
- The database write is I/O. Only the record passed to it, and whether it succeeded, are modelled. The generated ids, creation timestamps and type coercion of the database client are not modelled. Row fields stay JSON values, since `x || 'default'` can keep a number.
- `JSON.parse` and `new Date(...)` are parameters (`parseJson`, `parseDate`). Their grammars are not modelled. The parsed date stands for its `toISOString()`, which is a one-to-one rendering of a valid date.
- Console logging is not modelled, and neither are the prompt text and its wording.
- UploadAudio's monitored-file polling with `setInterval` and the monitored-file list are timers and fetches. The ffmpeg run is an external library. Toasts are not modelled. Neither are the two-decimal size labels, which use `toFixed` on floats.
- The state update and the callback in `handleTranscribe` are modelled. Toasts are not, and the request itself is the returned form.
- The EmailGenerator fetch, the clipboard write, the `setTimeout` and the DOM download are browser I/O. Their inputs and outputs are modelled; their effects are not.
- MeetingDetails' export request with axios, the animations and the tabs are presentation.
- The page components, the dashboard, its header and layout, and the generate-email route are not part of this model.
- Whitespace and upper-casing cover ASCII only. JavaScript's `\s` and `toUpperCase` also cover Unicode characters.
- `Transcribe.DecisionOf`: a decision without a truthy `date` gets the one instant `now` of the request. The route calls `new Date()` once for each such decision, so its instants can differ by a few milliseconds.
- `MeetingDetails.Lookup`: finds the first entry with a key. A JavaScript object has at most one entry per key.

## Findings

| source | as written | input that shows it | evidently intended | confidence | as-written member | corrected member |
|---|---|---|---|---|---|---|
| components/MeetingDetails.tsx:102-106 | `breakdown.Attendees.map(...) \|\| []` applies the default after `.map`, so a missing list throws | a breakdown with no `Attendees` key | `(breakdown.Attendees \|\| []).map(...)`, giving an empty attendee list | medium, not executed | `MeetingDetails.MissingAttendeesThrow` | `MeetingDetails.AttendeeRefsOrEmpty` |
