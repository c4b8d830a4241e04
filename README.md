# The Gargantuan front end, modelled in Dafny

The Gargantuan is a small publishing site. An admin uploads daily audio (MP3) and writes
Markdown posts. The backend stores the audio, can render a "spectral" video or vertical
shorts from it, and lists posts, drafts and trashed posts. This project models the logic
of the React front end's admin side and proves properties of it:

- **Export tool** (`Exports`): the suggested title, the hashtag line and the greedy word
  wrap used to draw a share image. Shared text and list helpers are in `Strings` and `Sorting`.
- **Publish workflows**, each a component class whose methods update its state fields:
  - `Publish`: the unified publish form.
  - `AdminPage`: the all-in-one admin page, with its video-job poll loop.
  - `Uploader`: the "Publish today's audio" uploader.
  - `SpectralAdmin`: the spectral-video page.
  - `SimpleUploader`: the small MP3 upload box.
  - `UploadProgress`: the upload percentage, shared by these workflows.
  - `Http`: the messages they show.
- **Listing and selection panels**: `ManagePosts`, `Trash`, `PagesAdmin` (the tabbed admin
  page and its posts panel), `ConsoleAdmin` (the plain admin console) and `ShortsTab`.
  `PostRecords` holds the post record, the URL fallback, the body snippet and the selection map.
- **Small state machines**: the hash router (`Router`), the admin-token hook (`AdminToken`,
  with local storage as a `map<string, string>`) and the snackbar hook (`Snackbar`).

Replies from the backend are inputs to the methods that model the handlers:

- a `fetch` reply is `Response(status, json)` or `Rejected(message)`;
- an XHR reply is `Loaded(status, json)` or `NetworkError`;
- an axios reply is `Resolved(data)` or `Failed(message)`.

Every request a handler sends is appended to a `requests` field. Every toast or alert goes
to a `toasts` or `alerts` field, and every status set goes to a history field. So "sends
nothing" and "the stages come in this order" are statements about fields.

Every handler with several stages is proved against a pure function of the old state and
the replies. Examples are `Publish.PublishRun`, `AdminPage.Submitted` and
`Uploader.RunStatuses`. Lemmas then state what the source promises about each function:
which requests are sent, in which order the statuses come, when the run publishes, and
what a 401 stops.

Where the code differs from the obvious reading, the model follows the code. The three
defects under "## Findings" are the exception: there the component's methods carry the
intended behaviour, and a separate member models the code as written. Cases that follow the code:

- In `src/Uploader.jsx`, a generate reply that is neither 401 nor ok is swallowed by the
  outer `catch`. The status stays at `generating` (`Uploader.GenerateEnd`).
- An upload reply that names no file ends the run still `uploading` (`Uploader.NoFilenameStalls`).
- On its audio path, `AdminPage` sends no `imageUrl` when there is no cover URL
  (`coverImageUrl || undefined`), not an empty one.

## Model

| member | source | states |
|---|---|---|
| Router.StripHash | src/router.js:2 | a leading `#` and at most one `/` after it are removed, and nothing else |
| Router.Get | src/router.js:2 | the route is the prefix of the stripped hash up to, not including, the first `?`, and holds no `?` |
| Router.BeforeQuestion | src/router.js:2 | `split('?')[0]` is the unique `?`-free prefix followed by `?` or the end |
| Router.GetOfEmpty | src/router.js:2 | an empty hash, `#` and `#/` give the empty route |
| Router.GetRoundTrip | src/router.js:2 | `#/route` and `#/route?query` give back `route` |
| Router.GetWithoutSlash | src/router.js:2 | `#route` gives `route` when it does not start with `/` |
| Router.Remove | src/router.js:4 | `Set.delete` keeps exactly the other subscribers, and changes nothing when `fn` is absent |
| Router.RemoveAdded | src/router.js:4 | unsubscribing a subscriber just added restores the earlier set |
| Router.RemoveDistinct | src/router.js:3-4 | removal keeps the subscriber list free of repeats |
| Router.HashRoute.constructor | src/router.js:3 | starts with no subscribers |
| Router.HashRoute.Subscribe | src/router.js:4 | `fn` is added at the end unless already present, so the set stays a set |
| Router.HashRoute.Unsubscribe | src/router.js:4 | `fn` leaves, the others keep their order |
| Router.HashRoute.HashChange | src/router.js:5 | every current subscriber, in order, receives the route of the new hash |
| Snackbar.AutoClose | src/useSnackbar.js:8-12 | the delay defaults to 3800, and a zero delay schedules no auto-close |
| Snackbar.SnackbarState.constructor | src/useSnackbar.js:4-6 | closed, empty message, kind `ok` |
| Snackbar.SnackbarState.Show | src/useSnackbar.js:8-13 | opens with the message and the kind (default `ok`), and returns the auto-close delay |
| Snackbar.SnackbarState.Close | src/useSnackbar.js:15 | only `open` changes |
| AdminToken.BoolString | src/useAdminToken.js:22 | `String(b)` is `"true"` iff `b` and `"false"` iff not |
| AdminToken.Lookup | src/useAdminToken.js:11-12 | `getItem` is absent exactly when the key is not stored |
| AdminToken.LoadedToken | src/useAdminToken.js:11-13 | the stored token is loaded only when non-empty, else `''` stays |
| AdminToken.LoadedRequire | src/useAdminToken.js:12-14 | the flag is restored as `stored === 'true'` |
| AdminToken.TokenRoundTrip | src/useAdminToken.js:13-18 | a token written and loaded again comes back unchanged |
| AdminToken.RequireRoundTrip | src/useAdminToken.js:14-22 | a flag written with `String` and loaded with `=== 'true'` comes back unchanged |
| AdminToken.AdminTokenState.constructor | src/useAdminToken.js:7-8 | initial token `''` and flag false |
| AdminToken.AdminTokenState.Mount | src/useAdminToken.js:10-23 | after the mount effects the fields hold the loaded values, and storage holds them as written back |
| AdminToken.AdminTokenState.SetToken | src/useAdminToken.js:17-19 | the new token is written under its key, the flag unchanged |
| AdminToken.AdminTokenState.SetRequireToken | src/useAdminToken.js:21-23 | the new flag is written as `String(b)`, the token unchanged |
| ShortsTab.MaxFallback | components/ShortsTab.jsx:19 | `Number(v) \|\| 45`: 0 and NaN give 45, any other number itself |
| ShortsTab.MaxFallbackStable | components/ShortsTab.jsx:19 | the length kept is never 0 and is a fixed point of the fallback |
| ShortsTab.Aud | components/ShortsTab.jsx:12 | the picker lists exactly the audio posts, as a subsequence in order |
| ShortsTab.AudOfAudio | components/ShortsTab.jsx:12 | a list of audio posts is offered whole |
| ShortsTab.AudCount | components/ShortsTab.jsx:12 | each audio post is offered as often as listed, others never |
| ShortsTab.ShortsTabState.constructor | components/ShortsTab.jsx:4 | empty lists, no pick, length 45 |
| ShortsTab.ShortsTabState.LoadPosts | components/ShortsTab.jsx:5 | the reply's JSON becomes the list, and a rejected request changes nothing |
| ShortsTab.ShortsTabState.LoadJobs | components/ShortsTab.jsx:6-7 | the same for the jobs list, also run by the interval |
| ShortsTab.ShortsTabState.Select | components/ShortsTab.jsx:16 | the pick is the selected filename |
| ShortsTab.ShortsTabState.SetMax | components/ShortsTab.jsx:19 | the stored length is the fallback of the input |
| ShortsTab.ShortsTabState.Enqueue | components/ShortsTab.jsx:8-10 | no pick: the `Pick audio` toast and no request; otherwise `{filename: sel, maxSeconds}` is sent, and jobs reload only on an ok reply |
| SimpleUploader.SucceededIsOk | src/components/Uploader.jsx:34 | success iff the request loaded with a 2xx status |
| SimpleUploader.Outcome | src/components/Uploader.jsx:38-41 | the `Uploaded` toast iff success, `Upload failed` iff not |
| SimpleUploader.UploaderState.constructor | src/components/Uploader.jsx:6-8 | not dragging, not busy, progress 0 |
| SimpleUploader.UploaderState.OnDrop | src/components/Uploader.jsx:10-15 | drag ends, and the dropped files replace the input's only when there are some |
| SimpleUploader.UploaderState.OnDrag | src/components/Uploader.jsx:16 | drag starts |
| SimpleUploader.UploaderState.OnDragLeave | src/components/Uploader.jsx:17 | drag ends |
| SimpleUploader.UploaderState.Upload | src/components/Uploader.jsx:19-59 | no file: `Pick a file` and no request; otherwise the upload is sent with the token, progress follows the computable events, `onUploaded` runs only on success, and busy and progress end reset; the button is disabled exactly while busy |
| SimpleUploader.UploadTraceBounded | src/components/Uploader.jsx:22-43 | with sane events every percentage shown lies in 0..100 |
| UploadProgress.Percent | src/components/Uploader.jsx:32 | the percentage as an exact rational rounded to the nearest integer, halves up: within half a point of `loaded * 100 / total` |
| UploadProgress.PercentBounds | src/Uploader.jsx:70 | the percentage is in 0..100, 0 at the start and 100 when all is loaded |
| UploadProgress.PercentMonotone | src/Uploader.jsx:70 | more loaded never shows less |
| UploadProgress.Reported | src/components/Publish.jsx:145-148 | one percentage per event whose length is computable |
| UploadProgress.ReportedBounds | src/components/Publish.jsx:145-148 | each reported percentage is at most 100 when no event reports more loaded than its total |
| UploadProgress.AfterEventsBounds | src/Uploader.jsx:57-72 | starting within 0..100, the progress stays there |
| UploadProgress.UncomputableKeep | src/Uploader.jsx:69 | events without a computable length never move the progress |
| Http.UnauthorizedMessageShape | src/Uploader.jsx:37 | the message is `Unauthorized (`, the place, and a fixed tail |
| Http.UnauthorizedInjective | src/components/Publish.jsx:116 | different places give different messages |
| Http.ErrorText | src/Uploader.jsx:87 | `err.message \|\| fallback` |
| Http.FailedStatusShape | src/components/Publish.jsx:154 | `<step> failed (<status>)` starts with the step's name and ends with `)` |
| PostRecords.Snippet | src/components/ManagePosts.jsx:137 | the first 60 characters and `…` for a longer body, the body itself otherwise, `''` without one |
| PostRecords.FirstUrl | src/components/ManagePosts.jsx:145 | the first truthy of `playUrl`, `audioUrl`, `videoUrl`, else `''` |
| PostRecords.Ids | src/components/ManagePosts.jsx:50-51 | the post ids, in order |
| PostRecords.Filenames | pages/Admin.jsx:29 | the filename keys, a missing filename being `"undefined"` |
| PostRecords.SelectedIds | src/components/ManagePosts.jsx:57 | exactly the keys mapped to true |
| PostRecords.SetAll | src/components/ManagePosts.jsx:50-51 | every listed key gets the value, other keys keep theirs, and no other key appears |
| PostRecords.SetAllSnoc | src/components/ManagePosts.jsx:50-51 | one more key is one more step of the `forEach` |
| PostRecords.SetAllSelects | src/components/Trash.jsx:31 | selecting every key from an empty map selects exactly those keys |
| PostRecords.Filter | pages/Admin.jsx:26 | `filter` keeps exactly the passing elements, in order |
| PostRecords.FilterAll | pages/Admin.jsx:26 | a filter that passes everything changes nothing |
| PostRecords.FilterCount | pages/Admin.jsx:26 | a filter neither drops nor repeats what passes |
| PostRecords.FilterSame | pages/Admin.jsx:26 | filters that agree on each element give the same list |
| Strings.LowerChar | pages/Admin.jsx:25 | an ASCII lower-case mapping that keeps whitespace and digits |
| Strings.UpperChar | src/components/Exports.jsx:8 | an ASCII upper-case mapping that lower-cases back alike |
| Strings.Lower | pages/Admin.jsx:25 | `toLowerCase` character by character, same length |
| Strings.Upper | src/components/Exports.jsx:8 | `toUpperCase` character by character, same length |
| Strings.LowerOfUpper | pages/Admin.jsx:25-26 | lower-casing forgets the case the text was written in |
| Strings.ContainsIffOccurs | pages/Admin.jsx:26 | `includes` finds the text exactly when it occurs at some position |
| Strings.LastIndexOf | src/components/AdminPage.jsx:158 | the last position holding the character, or -1, with no later occurrence |
| Strings.LastIndexUnique | src/components/AdminPage.jsx:158 | a position with no later occurrence is what `lastIndexOf` finds |
| Strings.Substring | src/components/AdminPage.jsx:158 | `substring` with clamped and ordered ends is no longer than the text |
| Strings.Take | src/components/Exports.jsx:7 | `slice(0, n)` is the first n characters, or all |
| Strings.TrimStart | src/components/Exports.jsx:4 | removes exactly the leading whitespace |
| Strings.TrimEnd | src/components/Exports.jsx:4 | removes exactly the trailing whitespace |
| Strings.TrimSpec | src/components/Exports.jsx:4 | `trim` keeps the visible characters and empties exactly the blank texts |
| Strings.CollapseSpec | src/components/Exports.jsx:4 | `trim().replace(/\s+/g, ' ')` gives the words of the text joined by single spaces, and splitting it on whitespace gives those words back; so no space at the ends, the same visible characters, and empty iff blank |
| Strings.Collapse | src/components/Exports.jsx:4 | no contract of its own: `trim()` then `replace(/\s+/g, ' ')`; `CollapseSpec` states what it gives |
| Strings.Trim | src/components/Exports.jsx:4 | no contract of its own: `TrimEnd` after `TrimStart`; `TrimSpec` states what it keeps |
| Strings.Join | src/components/Exports.jsx:16 | no contract of its own: the pieces with the separator between each two; `SplitJoin` states that splitting undoes it |
| Strings.Words | src/components/Exports.jsx:4 | no contract of its own: the non-empty pieces between whitespace; `WordsShape` states their shape |
| Strings.WordsShape | src/components/Exports.jsx:4 | every word is non-empty and holds no whitespace |
| Strings.WordsOfTrim | src/components/Exports.jsx:4 | trimming keeps the words |
| Strings.SquashIsWordsJoined | src/components/Exports.jsx:4 | text with no whitespace at either end squashes to its words joined by single spaces |
| Strings.CollapseIsWordsJoined | src/components/Exports.jsx:4 | collapsed text is its words joined by single spaces |
| Strings.CollapseNormal | src/components/Exports.jsx:4 | collapsed text has single spaces only, none at the ends, the same visible characters, and is empty iff blank |
| Strings.Split | src/components/Exports.jsx:6 | `split` on a character class gives at least one piece, none holding a separator |
| Strings.SplitFirstPiece | src/router.js:2 | the first piece is the longest separator-free prefix, and a separator follows it unless it reaches the end |
| Strings.SplitJoin | src/components/Exports.jsx:16 | splitting joined separator-free pieces gives the pieces back |
| Strings.SplitCount | src/components/Exports.jsx:55 | text without a separator splits into itself alone |
| Strings.LastPieceAfterLastIndex | src/components/Publish.jsx:173 | `split(c).pop()` is the text after the last `c` |
| Strings.OrEmpty | src/components/ManagePosts.jsx:120 | `o \|\| ''` |
| Strings.OrElse | src/components/Admin.jsx:55 | `o \|\| d` |
| Strings.IntToString | src/components/Publish.jsx:154 | a template literal prints an integer as non-empty text |
| Sorting.Insert | src/components/Exports.jsx:14 | insertion keeps the elements (as a multiset) |
| Sorting.InsertSorted | src/components/Exports.jsx:14 | insertion into a sorted list keeps it sorted |
| Sorting.SortBy | src/components/Exports.jsx:14 | `sort` by a key gives a sorted permutation |
| Sorting.InsertStable | src/components/Exports.jsx:14 | insertion keeps the order of equal keys |
| Sorting.SortStable | src/components/Exports.jsx:14 | the sort is stable, as `Array.prototype.sort` is required to be |
| Sorting.DistinctPerm | src/components/Exports.jsx:14 | a permutation of a repeat-free list is repeat-free |
| Exports.FindNonEmpty | src/components/Exports.jsx:6 | `find(Boolean)` gives a non-empty piece, and none only when all are empty |
| Exports.MakeTitle | src/components/Exports.jsx:3-9 | blank text gives the fixed title, and other text a title of 1 to 80 characters |
| Exports.FindFirstSentence | src/components/Exports.jsx:6 | the first non-empty piece is the first sentence, and none exists only when the text is all sentence ends |
| Exports.TitleOf | src/components/Exports.jsx:7-8 | no contract of its own: the title cut from a segment is at most 80 characters of it with the first upper-cased |
| Exports.TitleFromFirstSentence | src/components/Exports.jsx:4-8 | the title is the first sentence of the collapsed text (or the whole text when it has none), cut to 80 and with its first letter upper-cased |
| Exports.TitleSourceIsSlice | src/components/Exports.jsx:6-7 | the text cut for the title is a stretch of the collapsed text |
| Exports.TitleWsNormal | src/components/Exports.jsx:3-9 | a title never holds two whitespace characters in a row, nor any but the space |
| Exports.DefaultTitleNormal | src/components/Exports.jsx:5 | the fixed title is whitespace-normal |
| Exports.CutSentenceNormal | src/components/Exports.jsx:6-7 | the cut sentence of normal text is non-empty and normal |
| Exports.RunLen | src/components/Exports.jsx:11 | the length of the leading run of `[a-z0-9]` characters |
| Exports.Scan | src/components/Exports.jsx:11 | every match of `/[a-z0-9]{3,}/g` is a run of at least 3 word characters |
| Exports.ScanIsLongPieces | src/components/Exports.jsx:11 | the matches are exactly the pieces between non-word characters that are at least 3 long, in order |
| Exports.Dedup | src/components/Exports.jsx:13 | the keys `freq` gets: each word once, in order of first occurrence |
| Exports.CountsAt | src/components/Exports.jsx:13 | a word has a count iff it occurs, and the count is its number of occurrences |
| Exports.CountWords | src/components/Exports.jsx:12-13 | the loop leaves the keys in creation order and each word's count of occurrences |
| Exports.PropertyOrder | src/components/Exports.jsx:14 | no contract of its own: array-index keys ascending, then the others in creation order; `PropertyOrderPerm` states it is a permutation |
| Exports.PropertyOrderPerm | src/components/Exports.jsx:14 | `Object.entries` order (array-index keys first, then creation order) is a permutation of the keys |
| Exports.Entries | src/components/Exports.jsx:14 | one entry per key, with its word's count |
| Exports.FirstN | src/components/Exports.jsx:14 | `slice(0, n)` of a list |
| Exports.Tags | src/components/Exports.jsx:14 | `#` before each word |
| Exports.Missing | src/components/Exports.jsx:15 | the base tags not already among the top tags |
| Exports.OrderedKeys | src/components/Exports.jsx:14 | the keys listed are the counted words, each once |
| Exports.Ranked | src/components/Exports.jsx:12-14 | no contract of its own: the counted entries in `Object.entries` order, sorted by descending count; `RankedFacts` and `RankedIsRanking` state what it ranks |
| Exports.RankedFacts | src/components/Exports.jsx:14 | the ranking is sorted by descending count, and holds each word once with its count |
| Exports.RankedWordsDistinct | src/components/Exports.jsx:14 | no word is ranked twice |
| Exports.LeftOutIsLessFrequent | src/components/Exports.jsx:14 | a word outside the first n entries occurs at most as often as each of them |
| Exports.PrefixOfRanking | src/components/Exports.jsx:14 | the first n entries are the most frequent, most frequent first |
| Exports.TopAreMostFrequent | src/components/Exports.jsx:14 | the top entries are the six most frequent words (fewer if fewer), most frequent first, none left out more frequent |
| Exports.TiesKeepPropertyOrder | src/components/Exports.jsx:14 | entries with equal counts keep `Object.entries` order |
| Exports.TokensUncut | src/components/Exports.jsx:16 | with six tags at most and four base tags, the cut at ten removes nothing |
| Exports.TokensOf | src/components/Exports.jsx:14-16 | the tag list from at most six distinct words: every base tag present, no repeats, at most ten |
| Exports.HashtagTokens | src/components/Exports.jsx:14-16 | no contract of its own: the top six tags, then the missing base tags, cut to ten; `HashtagTokensFacts` states their content |
| Exports.HashtagTokensFacts | src/components/Exports.jsx:10-17 | the hashtags are the top tags and then the missing base tags: 1 to 10 of them, all base tags present, none repeated, each `#` and no space |
| Exports.HashtagsRoundTrip | src/components/Exports.jsx:16 | splitting the joined line on spaces gives the tags back |
| Exports.CountedEntries | src/components/Exports.jsx:13-14 | the entries read off the counted object are those of the reference definition |
| Exports.MakeHashtags | src/components/Exports.jsx:10-17 | the result is the hashtags joined by single spaces, and splits back into them |
| Exports.Wrap | src/components/Exports.jsx:57-66 | no contract of its own: the wrap from the first word and an empty line; `WrapSpec` states what it draws |
| Exports.WrapFrom | src/components/Exports.jsx:57-66 | the greedy wrap from a given word and current line draws at least one line |
| Exports.LineY | src/components/Exports.jsx:63 | line k is k line heights below the first |
| Exports.Lay | src/components/Exports.jsx:61-66 | one `fillText` per line |
| Exports.LayAt | src/components/Exports.jsx:61-66 | line k is drawn with its own text at `x` and `y + k * lineHeight` |
| Exports.WrapStep | src/components/Exports.jsx:58-64 | the next word ends the line when it overflows and is not the first word, and joins it otherwise |
| Exports.WrapBreakAfter | src/components/Exports.jsx:60-63 | a break moves the current line to the lines already drawn |
| Exports.WrapText | src/components/Exports.jsx:54-67 | the loop draws the greedy wrap of the words, each line one line height below the previous |
| Exports.WrapKeepsWords | src/components/Exports.jsx:57-65 | the lines put together are the words, each followed by one space |
| Exports.WrapLinesGood | src/components/Exports.jsx:57-65 | each line fits the width or holds a single word |
| Exports.WrapFirstLine | src/components/Exports.jsx:58-64 | the first line drawn begins with the current line |
| Exports.WrapBreaksOnOverflow | src/components/Exports.jsx:60-63 | a line ends only when the next word would overflow it |
| Exports.WrapSpec | src/components/Exports.jsx:54-67 | all words in order, every line good, breaks only on overflow, and the first word never breaks |
| Exports.ExportFileName | src/components/Exports.jsx:74 | `export-square.png` or `export-vertical.png` by ratio |
| Exports.Draw | src/components/Exports.jsx:30-52 | background, 16-pixel accent bar, title wrapped from (80, 200) with 86-pixel lines, and hashtags wrapped from (80, H - 200) with 36-pixel lines, both within W - 160 |
| Publish.ApplyThen | src/components/Publish.jsx:126-235 | running two steps in turn is running their composition |
| Publish.Extension | src/components/Publish.jsx:173 | no contract of its own: the text after the name's last dot; `ExtensionSpec` and `ExtensionIsLastPiece` state that it is `split('.').pop()` |
| Publish.ExtensionSpec | src/components/Publish.jsx:173 | the extension is the longest dot-free suffix of the name |
| Publish.ExtensionAfterLastDot | src/components/Publish.jsx:173 | the extension is the text after the last `.`, or the whole name |
| Publish.ExtensionIsLastPiece | src/components/Publish.jsx:173 | `name.split('.').pop()` is the extension |
| Publish.GenerateFilenameParts | src/components/Publish.jsx:173 | the generate filename is the upload id, a dot, and the audio file's extension |
| Publish.CoverStep | src/components/Publish.jsx:83-112 | no contract of its own: `uploadCover` with the file and cached URL it reads; `CoverStepSpec` states its outcomes |
| Publish.CoverStepSpec | src/components/Publish.jsx:83-112 | `uploadCover` returns `''` without a file and the cached URL without a request; it uploads only a file without a cached URL when there is a token; the URL it returns is cached |
| Publish.CoverCached | src/components/Publish.jsx:86-105 | once a cover URL is returned, a later call returns it again and sends nothing |
| Publish.Finish | src/components/Publish.jsx:194-202 | no contract of its own: a 401 reports its place, an ok reply publishes, anything else is thrown; `FinishSpec` states when it reaches `done` |
| Publish.GenerateEffect | src/components/Publish.jsx:167-181 | no contract of its own: status `generating`, the generate request, and a 401 report; `GenerateDone` and `GenerateRequests` state what it sends and when the run goes on |
| Publish.FinishSpec | src/components/Publish.jsx:194-202 | the final write reaches `done` iff it succeeds, and sets no status only when it failed without a 401 |
| Publish.EndsDoneThen | src/components/Publish.jsx:126-235 | whether a run ends `done` is decided by its last step that sets a status |
| Publish.AudioNext | src/components/Publish.jsx:166-185 | the phase after the cover is the generate call or the patch of the uploaded post |
| Publish.NoTokenSendsNothing | src/components/Publish.jsx:128-131 | without a token nothing is sent, the status is `error` and the message is the `no token` one |
| Publish.UploadFailure | src/components/Publish.jsx:151-162 | no contract of its own: a 401 reports `upload`, any other failure toasts its message, and the run stops; `UploadFailureStops` states it |
| Publish.UploadFailureStops | src/components/Publish.jsx:151-162 | a failed upload sends nothing more and never reaches `done`; on a 401 the status is `error` with the upload message |
| Publish.PatchDone | src/components/Publish.jsx:187-202 | the patch step ends `done` iff it succeeds |
| Publish.GenerateDone | src/components/Publish.jsx:167-202 | the generate step ends `done` iff the generate call and the patch succeed |
| Publish.AudioCoverDone | src/components/Publish.jsx:164-202 | past the upload, the audio path publishes iff the generate call (if any) and the patch succeed |
| Publish.UploadDone | src/components/Publish.jsx:134-202 | the audio path publishes iff the upload, the generate call (if any) and the patch succeed |
| Publish.TextCoverDone | src/components/Publish.jsx:204-221 | the text path publishes iff the create call succeeds |
| Publish.Run | src/components/Publish.jsx:132-222 | no contract of its own: the run from one phase on, each reply deciding the next phase; `PublishDoneIff` states when it publishes |
| Publish.PublishRun | src/components/Publish.jsx:126-222 | no contract of its own: no token reports and sends nothing, otherwise the run from the first phase; `NoTokenSendsNothing` and `PublishDoneIff` state it |
| Publish.PublishDoneIff | src/components/Publish.jsx:126-235 | `handlePublish` reaches `done` exactly when `Publishes` holds |
| Publish.AudioNextStatuses | src/components/Publish.jsx:166-202 | the statuses after the cover, step by step |
| Publish.AudioStatuses | src/components/Publish.jsx:134-202 | the statuses of the audio path, step by step |
| Publish.AudioStagesOf | src/components/Publish.jsx:136-199 | the stages come in the order of the plan, and make up the whole plan iff the patch is reached and succeeds |
| Publish.AudioStagesInOrder | src/components/Publish.jsx:136-199 | with audio, the non-error statuses are a prefix of `uploading`, `generating` (only when generating), `saving`, `done`, and the whole plan iff it publishes |
| Publish.GenerateRequests | src/components/Publish.jsx:170-193 | the generate call, then the patch of the post id it returned |
| Publish.AudioRequests | src/components/Publish.jsx:141-193 | the requests of the audio path in order: upload, cover if needed, generate for `<id>.<ext>` when generating, then the patch of the generated or uploaded post with the cover URL or `''` |
| Publish.TextPublish | src/components/Publish.jsx:204-221 | without audio: `publishing` first, the cover if needed, then the create call with `published = !draft`; it publishes iff the create call succeeds |
| Publish.UnauthorizedEndsRun | src/components/Publish.jsx:175-216 | a 401 on generate, patch or create ends the run without publishing |
| Publish.CoverChangeAsWritten | src/components/Publish.jsx:70-78 | the handler as written stores the new file but uploads with the previous render's file and URL |
| Publish.StaleCoverUploaded | src/components/Publish.jsx:70-78 | replacing one cover by another uploads the first file again and caches its URL next to the second |
| Publish.CoverChangeIntended | src/components/Publish.jsx:70-78 | picking a cover uploads the picked file when there is a token, and caches only a URL from an ok reply |
| Publish.IntendedCoverIsPicked | src/components/Publish.jsx:70-78 | after an intended change the publish reuses the picked file's URL or uploads the picked file, never an earlier cover |
| Publish.WithImage | src/components/Publish.jsx:59 | the body with `\n\n![alt](url)` appended, so the old body is a prefix |
| Publish.InsertImageSpec | src/components/Publish.jsx:36-66 | no status is set; the upload is sent iff there is a token and a file; exactly one toast unless no file was picked, and it is the success toast iff the upload succeeded |
| Publish.PublishState.constructor | src/components/Publish.jsx:15-31 | the form's defaults and an idle view |
| Publish.PublishState.SetTitle | src/components/Publish.jsx:242 | the title field is the typed text |
| Publish.PublishState.SetBody | src/components/Publish.jsx:250 | the body field is the typed text |
| Publish.PublishState.SetDraft | src/components/Publish.jsx:260 | the draft flag is the checkbox's value |
| Publish.PublishState.SetGenerateVideo | src/components/Publish.jsx:281 | the generate-video flag is the checkbox's value |
| Publish.PublishState.ChooseAudio | src/components/Publish.jsx:132 | the audio file the publish reads is the one chosen, or none |
| Publish.AudioCoverRequests | src/components/Publish.jsx:164-193 | after the upload: the cover upload if needed, the generate call when generating, then the patch |
| Publish.TextCoverSteps | src/components/Publish.jsx:205-221 | the text path's statuses are `publishing`, the cover's, then the final write's; its requests the cover's and then the create call |
| Publish.PublishState.SetStage | src/components/Publish.jsx:136-138 | sets status and message, and records the status |
| Publish.PublishState.ShowUnauthorized | src/components/Publish.jsx:115-120 | status `error`, the unauthorized message, and the same message as an error toast |
| Publish.PublishState.UploadCover | src/components/Publish.jsx:83-112 | does what `CoverStep` says for the current file and cached URL |
| Publish.PublishState.HandleCoverChange | src/components/Publish.jsx:70-78 | no file: nothing changes; otherwise the intended cover change |
| Publish.PublishState.HandleInsertImage | src/components/Publish.jsx:36-66 | the insert-image effect, with the image appended to the body only on success |
| Publish.PublishState.ReceiveUpload | src/components/Publish.jsx:150-162 | the run goes on iff the upload resolved, and otherwise the failure is shown |
| Publish.PublishState.GenerateStep | src/components/Publish.jsx:167-181 | the generate call's effect, ok iff it resolved with a body |
| Publish.PublishState.FinishStep | src/components/Publish.jsx:194-202 | a successful final write sets `done` and schedules `onDone` once |
| Publish.PublishState.SaveStep | src/components/Publish.jsx:186-202 | the patch step as `Run(Patch ...)` says |
| Publish.PublishState.GenerateThenSave | src/components/Publish.jsx:167-202 | the generate call and then the patch, done iff both succeed |
| Publish.PublishState.AfterCover | src/components/Publish.jsx:165-202 | the phase `AudioNext` names |
| Publish.PublishState.AfterUpload | src/components/Publish.jsx:163-202 | the cover and then the next phase, with the cover URL cached |
| Publish.PublishState.UploadStep | src/components/Publish.jsx:136-162 | status `uploading`, progress from the events, the upload sent, and on when it resolved |
| Publish.PublishState.AudioPath | src/components/Publish.jsx:134-202 | the audio path's effect, done iff the upload, the generate call if any and the patch succeed |
| Publish.PublishState.CreateStep | src/components/Publish.jsx:208-221 | the create call with `published = !draft` |
| Publish.PublishState.TextPath | src/components/Publish.jsx:204-222 | the text path's effect, done iff the create call succeeds |
| Publish.PublishState.PublishSteps | src/components/Publish.jsx:126-222 | the whole run as `PublishRun` says, done iff `Publishes` |
| Publish.PublishState.HandlePublish | src/components/Publish.jsx:126-235 | the run, then the form reset exactly when it published |
| AdminPage.PublishFailedText | src/components/AdminPage.jsx:210 | the alert is `Failed to publish: ` and the cause's message |
| AdminPage.PostIdSpec | src/components/AdminPage.jsx:157-158 | the id is the filename before its last `.`, and `''` without a dot |
| AdminPage.PostIdOf | src/components/AdminPage.jsx:158 | no contract of its own: the filename up to its last dot; `PostIdRoundTrip` states that it gives back the id |
| AdminPage.PostIdRoundTrip | src/components/AdminPage.jsx:158 | an `id.ext` filename with a dot-free extension gives back `id` |
| AdminPage.WithImage | src/components/AdminPage.jsx:102 | the body with `\n\n![image](url)` appended |
| AdminPage.WithImagePrefix | src/components/AdminPage.jsx:102 | appending images keeps every earlier body as a prefix |
| AdminPage.PollLength | src/components/AdminPage.jsx:168-179 | the loop reads no more replies than there are |
| AdminPage.AfterReadsSpec | src/components/AdminPage.jsx:169-173 | each read waits 1200 ms, asks for the job, and sets its progress |
| AdminPage.PollLengthSpec | src/components/AdminPage.jsx:168-179 | no reply before the last one read is terminal, and the loop stops right after the first terminal one |
| AdminPage.PollEnd | src/components/AdminPage.jsx:168-179 | no contract of its own: the first terminal reply decides the loop; `PollEndSpec` states how it ends |
| AdminPage.PollEndSpec | src/components/AdminPage.jsx:168-179 | the loop completes iff the last reply read says `done`, throws the request's or the job's error, and keeps polling iff no reply is terminal |
| AdminPage.PollSkip | src/components/AdminPage.jsx:169-179 | after running replies the loop goes on as from the next reply |
| AdminPage.PollStopsAt | src/components/AdminPage.jsx:174-178 | the loop stops at the first terminal reply with its outcome |
| AdminPage.PollRun | src/components/AdminPage.jsx:166-190 | no contract of its own: the job reads and, once done, the patch of the post; `AdminPageState.PollThenSave` is proved against it |
| AdminPage.PollRunsOut | src/components/AdminPage.jsx:169-179 | with no terminal reply all are read and it is still polling |
| AdminPage.PollReports | src/components/AdminPage.jsx:171-173 | every resolved reply read reports its job's progress, in order |
| AdminPage.RunningReports | src/components/AdminPage.jsx:173 | the reports of resolved replies are their progress values |
| AdminPage.SaveRequest | src/components/AdminPage.jsx:186-203 | with audio, the patch with `imageUrl` only for a truthy cover URL and the draft flag; without audio, the create call with the cover URL or `''` and `published = !isDraft` |
| AdminPage.SubmitSavesIff | src/components/AdminPage.jsx:149-204 | a submit saves iff its replies allow it, and then its last request is the final write |
| AdminPage.SubmitPollingIff | src/components/AdminPage.jsx:159-180 | a submit is left polling iff it generates a video and every poll says the job runs |
| AdminPage.JobOnlyWithVideo | src/components/AdminPage.jsx:150-203 | the generate call and the polls happen only with audio and `generateVideo`, and the requests of each path are listed |
| AdminPage.PollsAskForTheJob | src/components/AdminPage.jsx:166-171 | each poll waits 1200 ms and asks for the job the generate call started |
| AdminPage.Reloaded | src/components/AdminPage.jsx:46-61 | both lists are asked for; a failure keeps the old lists and records its message; loading ends |
| AdminPage.Written | src/components/AdminPage.jsx:219-258 | no contract of its own: a failure alerts, a success reloads; `WrittenSpec` states it |
| AdminPage.WrittenSpec | src/components/AdminPage.jsx:219-258 | a write alerts only on failure and reloads only on success |
| AdminPage.SubmitNeedsTitle | src/components/AdminPage.jsx:143-146 | without a title only the alert: no state change and no request |
| AdminPage.SubmitRun | src/components/AdminPage.jsx:149-206 | no contract of its own: the requests and end of the `try` block; `SubmitOutcome` states what each end leaves |
| AdminPage.Submitted | src/components/AdminPage.jsx:142-214 | no contract of its own: the title guard, the run, and its end; `SubmitOutcome` states it |
| AdminPage.CauseMessage | src/components/AdminPage.jsx:208-210 | no contract of its own: the `err.message` that the failure alert shows |
| AdminPage.SubmitOutcome | src/components/AdminPage.jsx:142-214 | a saved submit reloads and resets the form; a thrown one alerts its cause and keeps the form; busy ends cleared unless still polling |
| AdminPage.SavedEdit | src/components/AdminPage.jsx:273-290 | no contract of its own: `handleSaveEdit` on the page; `SavedEditSpec` states it |
| AdminPage.SavedEditSpec | src/components/AdminPage.jsx:273-290 | nothing without an editing id; otherwise the patch, then reload and reset on success or an alert on failure, and busy ends cleared |
| AdminPage.AdminPageState.constructor | src/components/AdminPage.jsx:19-38 | the page's initial form and lists |
| AdminPage.AdminPageState.LoadLists | src/components/AdminPage.jsx:46-61 | the page as `Reloaded` says |
| AdminPage.AdminPageState.ResetForm | src/components/AdminPage.jsx:68-78 | the form goes back to its defaults |
| AdminPage.AdminPageState.SetTitle | src/components/AdminPage.jsx:301 | the title input changes the title and nothing else |
| AdminPage.AdminPageState.SetBody | src/components/AdminPage.jsx:309 | the body textarea changes the body and nothing else |
| AdminPage.AdminPageState.SetAudioFile | src/components/AdminPage.jsx:342 | the audio input keeps the first chosen file, or none |
| AdminPage.AdminPageState.SetGenerateVideo | src/components/AdminPage.jsx:353 | the checkbox sets whether a video is generated |
| AdminPage.AdminPageState.SetIsDraft | src/components/AdminPage.jsx:364 | the checkbox sets the draft flag |
| AdminPage.AdminPageState.InsertImage | src/components/AdminPage.jsx:90-107 | no file: nothing; otherwise the image upload, and the body appended on success or an alert on failure |
| AdminPage.AdminPageState.SelectCover | src/components/AdminPage.jsx:115-135 | the file replaces the cover; no file clears the URL; the URL comes from an ok upload, and a failure alerts and keeps the old URL |
| AdminPage.AdminPageState.ReadJob | src/components/AdminPage.jsx:169-178 | one turn: wait, fetch, show progress; complete iff `done`, throws iff failed or `error` |
| AdminPage.AdminPageState.PollJob | src/components/AdminPage.jsx:168-179 | the loop ends as `PollEnd` says, after the reads `PollLength` counts |
| AdminPage.AdminPageState.Save | src/components/AdminPage.jsx:186-203 | sends the final write |
| AdminPage.AdminPageState.PollThenSave | src/components/AdminPage.jsx:166-190 | the poll and then the patch |
| AdminPage.AdminPageState.AfterUpload | src/components/AdminPage.jsx:157-190 | the audio path after a named upload |
| AdminPage.AdminPageState.Send | src/components/AdminPage.jsx:149-204 | the `try` block as `SubmitRun` says |
| AdminPage.AdminPageState.Conclude | src/components/AdminPage.jsx:205-213 | reload and reset on success, alert on a throw, busy cleared unless polling |
| AdminPage.AdminPageState.HandleSubmit | src/components/AdminPage.jsx:142-214 | the page as `Submitted` says |
| AdminPage.AdminPageState.AfterWrite | src/components/AdminPage.jsx:225-229 | the page as `Written` says |
| AdminPage.AdminPageState.HandleDelete | src/components/AdminPage.jsx:219-230 | nothing without confirmation; otherwise the delete, then as `Written` |
| AdminPage.AdminPageState.HandleRestore | src/components/AdminPage.jsx:233-243 | the restore, then as `Written` |
| AdminPage.AdminPageState.HandleToggleDraft | src/components/AdminPage.jsx:246-258 | the draft patch, then as `Written` |
| AdminPage.AdminPageState.HandleEdit | src/components/AdminPage.jsx:263-270 | the form takes the post's id, title, body and draft flag, and drops audio and progress |
| AdminPage.AdminPageState.HandleSaveEdit | src/components/AdminPage.jsx:273-290 | the page as `SavedEdit` says |
| Uploader.MimeOkIff | src/Uploader.jsx:19 | a type is accepted iff `audio/mp3` or `audio/mpeg` occurs somewhere in it |
| Uploader.MimeExamples | src/Uploader.jsx:19 | the MP3 types and a type containing one pass, `audio/wav` does not |
| Uploader.Header | src/Uploader.jsx:67-100 | the token header is sent iff the token is non-empty |
| Uploader.UploadFailedMessage | src/Uploader.jsx:80 | `Upload failed (<status>)` |
| Uploader.UploadEnd | src/Uploader.jsx:74-91 | network error, 401, non-2xx, bad JSON and a reply without `filename` each end the run as the source says |
| Uploader.GenerateEnd | src/Uploader.jsx:105-118 | 401 is an error, an ok JSON reply is done, and anything else is swallowed with the status left at `generating` |
| Uploader.RunStatuses | src/Uploader.jsx:55-115 | no contract of its own: `uploading`, then the statuses of the upload's end or of the generate step; `RunOrder` states their order |
| Uploader.RunOrder | src/Uploader.jsx:56-112 | a run starts `uploading`, generates iff the upload names a file, and is done only right after generating on an ok reply, so never on 401 |
| Uploader.NoFilenameStalls | src/Uploader.jsx:91 | an upload without `filename` stops the run still `uploading`, with no generate call |
| Uploader.SubmitEnabledWhenSettled | src/Uploader.jsx:156 | with a required token present, only a run in progress disables submit |
| Uploader.UploaderState.constructor | src/Uploader.jsx:7-11 | the initial fields |
| Uploader.UploaderState.SetTitle | src/Uploader.jsx:149 | the title field is the typed text |
| Uploader.UploaderState.SetStatus | src/Uploader.jsx:56 | the status is set and recorded in the history |
| Uploader.UploaderState.OnDrop | src/Uploader.jsx:13-30 | an MP3 replaces the file with a `Selected:` message; anything else sets `error`, the message and the toast |
| Uploader.UploaderState.OnDragOver | src/Uploader.jsx:32 | a drag over the zone highlights it |
| Uploader.UploaderState.OnDragLeave | src/Uploader.jsx:33 | leaving the zone clears the highlight |
| Uploader.UploaderState.HandleUnauthorized | src/Uploader.jsx:35-40 | status `error`, the message, and the same toast |
| Uploader.UploaderState.Fail | src/Uploader.jsx:87 | status `error`, the message, and the same toast |
| Uploader.UploaderState.HandleUpload | src/Uploader.jsx:42-119 | no file or a missing required token: the error and no request; otherwise the upload and the generate step as `RunStatuses` says, with `onDone` scheduled only when done |
| Uploader.UploaderState.Run | src/Uploader.jsx:55-115 | progress from the events, statuses as `RunStatuses` says, and what each end shows |
| Uploader.UploaderState.StartUpload | src/Uploader.jsx:56-84 | status `uploading`, the message, progress from the events, and the upload sent |
| Uploader.UploaderState.ReceiveAndGenerate | src/Uploader.jsx:74-115 | the reply, and the generate step iff it names a file |
| Uploader.UploaderState.ReceiveUpload | src/Uploader.jsx:74-91 | the stored name iff the reply names a file, and otherwise the end `UploadEnd` gives |
| Uploader.UploaderState.GenerateStep | src/Uploader.jsx:93-115 | the generate call with the file and title, and the end `GenerateEnd` gives |
| ManagePosts.Rows | src/components/ManagePosts.jsx:131-149 | one row per post and then per draft, keyed by position |
| ManagePosts.RowsOrder | src/components/ManagePosts.jsx:135-146 | posts first, then drafts, each row with its post's id, link and preview |
| ManagePosts.EditOf | src/components/ManagePosts.jsx:118-123 | `title \|\| ''`, `body \|\| ''`, and the draft flag only when it is `true` |
| ManagePosts.RowEdit | src/components/ManagePosts.jsx:266 | the Edit button as written opens the dialog with an empty body |
| ManagePosts.PostEdit | src/components/ManagePosts.jsx:118-123 | editing from the post opens the dialog with its body |
| ManagePosts.RowEditLosesBody | src/components/ManagePosts.jsx:266 | a post with a body is edited from its row with an empty body |
| ManagePosts.PostEditKeeps | src/components/ManagePosts.jsx:118-123 | opened from the post, an unchanged dialog saves back what the post had |
| ManagePosts.LoadToasts | src/components/ManagePosts.jsx:33-34 | a toast iff the load failed |
| ManagePosts.ManagePostsState.constructor | src/components/ManagePosts.jsx:12-19 | empty lists and selection, loading, no edit |
| ManagePosts.ManagePostsState.Load | src/components/ManagePosts.jsx:21-38 | a successful load replaces both lists and clears the selection |
| ManagePosts.ManagePostsState.ToggleAll | src/components/ManagePosts.jsx:46-53 | every post and draft id gets the checked value, other keys unchanged |
| ManagePosts.ManagePostsState.ToggleOne | src/components/ManagePosts.jsx:54-56 | only that key changes |
| ManagePosts.ManagePostsState.Save | src/components/ManagePosts.jsx:60-77 | the dialog's fields are sent; 401 and other failures toast; the dialog closes and the lists reload only on ok |
| ManagePosts.ManagePostsState.BulkDeleteSelected | src/components/ManagePosts.jsx:98-115 | nothing with nothing selected; otherwise exactly one request with the selected ids, each outcome toasts as written, and only an ok reply clears the selection and reloads, every other reply leaving posts, drafts, selection and loading as they were |
| ManagePosts.ManagePostsState.DeleteOne | src/components/ManagePosts.jsx:80-95 | the delete, each outcome's toast, and a reload only on ok; every other reply sends just the delete and leaves posts, drafts, selection and loading as they were |
| ManagePosts.ManagePostsState.ToggleDraft | src/components/ManagePosts.jsx:154-170 | sends `draft: !currentDraft`, and toasts the new state on ok; every other reply sends just the patch and leaves posts, drafts, selection and loading as they were |
| ManagePosts.ManagePostsState.StartEdit | src/components/ManagePosts.jsx:118-123 | given the post, as the dialog intends, it opens on the post with its title, body and draft flag |
| ManagePosts.ManagePostsState.StartEditFromRow | src/components/ManagePosts.jsx:266 | the Edit button as written passes the table row, so the dialog opens on the row's id and title with an empty body |
| ManagePosts.ManagePostsState.CancelEdit | src/components/ManagePosts.jsx:126-128 | the dialog closes |
| Trash.TrashRows | src/components/Trash.jsx:68-70 | one row per item, keyed by position, with the URL fallback |
| Trash.TrashRowsOrder | src/components/Trash.jsx:68-70 | the rows keep the items' order, and a row has a link iff its item has one |
| Trash.LoadToasts | src/components/Trash.jsx:20-21 | a toast iff the load failed |
| Trash.TrashState.constructor | src/components/Trash.jsx:9-11 | empty, loading |
| Trash.TrashState.Load | src/components/Trash.jsx:13-25 | a successful load replaces the items and clears the selection |
| Trash.TrashState.ToggleAll | src/components/Trash.jsx:28-33 | checked: exactly the item ids, all true; unchecked: empty |
| Trash.TrashState.ToggleOne | src/components/Trash.jsx:34 | only that key changes |
| Trash.TrashState.RestoreOne | src/components/Trash.jsx:37-44 | 401 and other failures toast without reload; ok toasts and reloads |
| Trash.TrashState.HardDeleteOne | src/components/Trash.jsx:46-54 | nothing unless confirmed; then as `RestoreOne` with its own messages |
| Trash.TrashState.BulkRestoreSelected | src/components/Trash.jsx:56-66 | nothing with nothing selected; otherwise exactly one request with the selected ids, and only an ok reply clears the selection and reloads, every other reply leaving items, selection and loading as they were |
| PagesAdmin.Label | pages/Admin.jsx:26 | `title \|\| filename` |
| PagesAdmin.Filtered | pages/Admin.jsx:23-27 | all posts for an empty query, otherwise the matching posts in order |
| PagesAdmin.FilteredIgnoresCase | pages/Admin.jsx:25-26 | queries that lower-case alike select the same posts |
| PagesAdmin.FilteredUpper | pages/Admin.jsx:25-26 | an upper-cased query finds what the query finds |
| PagesAdmin.Flip | pages/Admin.jsx:30 | `!s[fn]` for that key, a missing key counting as false, and others unchanged |
| PagesAdmin.FlipSelection | pages/Admin.jsx:30-31 | a flip puts the key in or out of the selection and touches no other |
| PagesAdmin.FlipTwice | pages/Admin.jsx:30-31 | ticking twice leaves the selection as it was |
| PagesAdmin.InitialShow | pages/Admin.jsx:84 | `!!token` is true iff the token is non-empty |
| PagesAdmin.GateAsWritten | pages/Admin.jsx:84 | as written, the prompt comes first even with a token saved |
| PagesAdmin.IntendedShow | pages/Admin.jsx:84-95 | the gate as intended, decided by the stored token |
| PagesAdmin.IntendedShowAfterSave | src/useAdminToken.js:18 | a token saved on one visit opens the main view on the next iff it is non-empty |
| PagesAdmin.AdminGate.constructor | pages/Admin.jsx:83-84 | upload tab, past the prompt iff a token is stored |
| PagesAdmin.AdminGate.Continue | pages/Admin.jsx:100 | the main view shows |
| PagesAdmin.AdminGate.SetView | pages/Admin.jsx:107-109 | the tab is the one clicked |
| PagesAdmin.PostsPanel.constructor | pages/Admin.jsx:14-18 | empty panel |
| PagesAdmin.PostsPanel.Load | pages/Admin.jsx:20 | the list is the reply's array, or empty |
| PagesAdmin.PostsPanel.SetQuery | pages/Admin.jsx:48 | the query is the typed text |
| PagesAdmin.PostsPanel.ToggleAll | pages/Admin.jsx:29 | checked: exactly the filtered filenames, all true; unchecked: empty |
| PagesAdmin.PostsPanel.ToggleOne | pages/Admin.jsx:30 | that key is negated |
| PagesAdmin.PostsPanel.SoftDeleteMany | pages/Admin.jsx:33-36 | nothing with nothing selected; otherwise the selection is sent, cleared and the list reloaded |
| PagesAdmin.PostsPanel.RestoreMany | pages/Admin.jsx:37-40 | the same, to the restore endpoint |
| PagesAdmin.PostsPanel.StartEdit | pages/Admin.jsx:68 | edits the filename, starting from its title and tagline or `''` |
| PagesAdmin.PostsPanel.SaveMetaEdit | pages/Admin.jsx:41-44 | nothing unless editing; otherwise the metadata is sent and the editor closes |
| PagesAdmin.PostsPanel.MakeVideo | pages/Admin.jsx:67 | asks for a video for an audio post with its title or `''`, then reloads |
| ConsoleAdmin.PostType | src/components/Admin.jsx:85 | `video` iff a video URL, `audio` iff an audio but no video URL, and so on down to `text` |
| ConsoleAdmin.PostTypeTotal | src/components/Admin.jsx:85 | every post gets one of the four types |
| ConsoleAdmin.StatusLabel | src/components/Admin.jsx:87 | `deleted` iff deleted, `active` iff not |
| ConsoleAdmin.Actions | src/components/Admin.jsx:89-91 | Create Video and Delete iff not deleted, Restore iff deleted |
| ConsoleAdmin.ActionsMatchStatus | src/components/Admin.jsx:87-91 | never both Delete and Restore; Restore iff the status reads `deleted` |
| ConsoleAdmin.Find | src/components/Admin.jsx:50 | the first post with that id, or none iff no post has it |
| ConsoleAdmin.ConsoleState.constructor | src/components/Admin.jsx:5-9 | the token starts from `ADMIN_TOKEN` storage or `''` |
| ConsoleAdmin.ConsoleState.Load | src/components/Admin.jsx:11-15 | the list from the reply |
| ConsoleAdmin.ConsoleState.SetToken | src/components/Admin.jsx:64 | the field is the typed token |
| ConsoleAdmin.ConsoleState.SetFile | src/components/Admin.jsx:71 | the chosen file, or none |
| ConsoleAdmin.ConsoleState.SaveToken | src/components/Admin.jsx:19-23 | the token is stored under `ADMIN_TOKEN`, and the message shows for 1500 ms |
| ConsoleAdmin.ConsoleState.ClearMessage | src/components/Admin.jsx:22 | the message clears |
| ConsoleAdmin.ConsoleState.Upload | src/components/Admin.jsx:25-37 | nothing without a file; the file goes in the field named `kind`; failure says so; success reloads and says `Uploaded` |
| ConsoleAdmin.ConsoleState.Remove | src/components/Admin.jsx:39-42 | the delete, with a reload only on ok |
| ConsoleAdmin.ConsoleState.RestoreOne | src/components/Admin.jsx:44-47 | the restore, with a reload only on ok |
| ConsoleAdmin.ConsoleState.GenVideo | src/components/Admin.jsx:49-58 | nothing unless the post is listed with a filename; the title falls back to `The Gargantuan` |
| SpectralAdmin.InitialToken | src/pages/Admin.jsx:6 | `getItem('garg_token') \|\| ''` |
| SpectralAdmin.TokenPersists | src/pages/Admin.jsx:6-14 | the token typed is what the next visit starts with |
| SpectralAdmin.ErrorMessage | src/pages/Admin.jsx:33 | the backend's `error`, else the fallback |
| SpectralAdmin.UploadedName | src/pages/Admin.jsx:34 | `json.key \|\| json.filename` |
| SpectralAdmin.QueuedMessage | src/pages/Admin.jsx:54 | the queued alert with the job id |
| SpectralAdmin.SpectralAdminState.constructor | src/pages/Admin.jsx:6-14 | the token from storage, written straight back, and the other fields' defaults |
| SpectralAdmin.SpectralAdminState.SetToken | src/pages/Admin.jsx:14 | typing a token stores it at once |
| SpectralAdmin.SpectralAdminState.SetTitle | src/pages/Admin.jsx:88 | the title is the typed text |
| SpectralAdmin.SpectralAdminState.DoUpload | src/pages/Admin.jsx:22-38 | 2% while sending and 100% with the name on ok; a failure alerts and keeps the name; busy, which disables both buttons, only meanwhile |
| SpectralAdmin.SpectralAdminState.OnDrop | src/pages/Admin.jsx:16-20 | nothing without files; otherwise the first file is uploaded as `doUpload` says: busy only meanwhile, 100% and the stored name on ok, 2% and an alert on failure |
| SpectralAdmin.SpectralAdminState.Generate | src/pages/Admin.jsx:40-76 | no file: only `Upload first`; otherwise the job request, its outcome alerted, and busy cleared |

## Left out

- Transport is not modelled. `fetch`, `axios`, `XMLHttpRequest`, `FormData`, headers, JSON parsing and `encodeURIComponent` become abstract reply values and request records. A JSON parse failure is one of those reply values, for example `Rejected`, or a body that is `None`.
- Time is modelled only as order:
  - timers (the 1200 ms poll wait, the `onDone` delays, the snackbar delay, the message timer) are values appended to a `delays`, `timers` or `scheduled` field;
  - the ShortsTab interval is `LoadJobs` called again;
  - `Promise.all` in the list loaders is one combined reply.
- `alert`, `confirm`, `console.error`, toasts and rendering: confirmations are boolean parameters, and alerts and toasts are logs. JSX, CSS, dates and the DOM input resets are not modelled.
- `localStorage` is a `map<string, string>`. `location.hash` is a string parameter, and the `hashchange` listener is a method.
- Exports.Draw: the canvas, fonts, colours, `toDataURL` and the download link are not modelled. `measureText` is an abstract integer width function, so floating-point widths are not modelled.
- Strings.Lower: ASCII only. JavaScript's `toLowerCase` also maps non-ASCII letters.
- Strings.Upper: ASCII only. `toUpperCase` can also change a string's length outside ASCII.
- Strings.TrimSpec: whitespace is the ASCII part of JavaScript's `\s`. Unicode spaces are not modelled.
- PostRecords.Snippet: lengths count characters, not UTF-16 code units as JavaScript does.
- UploadProgress.Reported: an event with a computable total of 0 reports nothing. The source would set the progress to `NaN`.
- Exports.CountWords: `freq` is a map with no inherited keys. A word equal to an `Object.prototype` property name, such as `constructor`, starts in the source from that property instead of 0. Its count is then not a number, and the ranking of such a text is not modelled.
- AdminPage.AdminPageState.PollJob: the source loop is unbounded. The model reads a finite sequence of job replies and ends `StillPolling`, with `uploading` still set, when the sequence runs out without a terminal reply.
- AdminPage.CauseMessage: the `TypeError` message for an upload reply without `filename` is a parameter, because it is the engine's text.
- AdminPage.AdminPageState.HandleEdit: the post's title, body and draft flag are passed in as values, so missing fields are not modelled.
- Selected ids are a set. The order in which `Object.keys` would list them in a request is not modelled.
- Publish.PublishState.HandleCoverChange: models the intended upload of the picked file. The handler as written is `Publish.CoverChangeAsWritten`; see Findings.
- PagesAdmin.AdminGate.constructor: models the intended gate. The gate as written is `PagesAdmin.GateAsWritten`; see Findings.
- UploadProgress.Percent: the rounding is exact, not in doubles. `Math.round((loaded / total) * 100)` rounds a floating-point product that can land just below a half. For 23 of 40 it is 57.49999999999999, so the source shows 57 where `Percent` gives 58; 57 of 200 shows 28 where `Percent` gives 29.
- ShortsTab.MaxFallback: `Number(value)` is an optional integer. `Number("12.5") || 45` keeps 12.5, and fractional lengths are not modelled.
- ManagePosts.ManagePostsState.StartEdit: models the intended opening on the post itself. The Edit button as written passes the table row, which is `ManagePosts.ManagePostsState.StartEditFromRow`; see Findings.
- PagesAdmin.Filtered: a post with neither title nor filename is left out. In the source, `(p.title||p.filename).toLowerCase()` then throws a `TypeError` for any non-empty query, and the whole filter fails. `PagesAdmin.Matches` shares this gap.
- PagesAdmin.PostsPanel: requests record no headers. `saveMeta` (pages/Admin.jsx:42) is the panel's only request sent without `x-admin-token`, and the model does not show that difference.
- The pages are rendered by files that are not part of this model: `src/App.jsx`, `src/pages/App.jsx`, `src/main.jsx` and the thin `src/api.js` wrapper.

## Findings

| source | as written | input that shows it | evidently intended | confidence | as-written member | corrected member |
|---|---|---|---|---|---|---|
| src/components/ManagePosts.jsx:266 | The Edit button passes the table row to `startEdit`. A row has a `snippet` but no `body`, so `editBody` becomes `''`. | A post with body `"A long story"`: the dialog opens with an empty body, and Save sends `body: ''`. | `startEdit` receives the post, so the dialog shows and keeps its body. | high; not executed | ManagePosts.RowEdit, ManagePosts.RowEditLosesBody | ManagePosts.PostEdit, ManagePosts.PostEditKeeps |
| pages/Admin.jsx:84 | `useState(!!token)` reads the token at the first render. `useAdminToken` still returns `''` then, because it loads the stored token in an effect. | Storage holding `"secret"` under the token key: the hook loads `"secret"`, but the token prompt is shown anyway. | The gate is decided by the stored token. | medium; not executed | PagesAdmin.GateAsWritten | PagesAdmin.IntendedShow, PagesAdmin.IntendedShowAfterSave |
| src/components/Publish.jsx:70-78 | `handleCoverChange` sets the new file, clears the URL and calls `uploadCover()` in the same render. That call still sees the previous file and URL. | Cover `first.png`, not yet uploaded, replaced by `second.png`: `first.png` is uploaded, and its URL is cached next to `second.png` and sent with the post. | The file just picked is uploaded. | medium; not executed | Publish.CoverChangeAsWritten, Publish.StaleCoverUploaded | Publish.CoverChangeIntended, Publish.IntendedCoverIsPicked |
