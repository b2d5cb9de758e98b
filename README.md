# Song page queue logic in Dafny

This project models the song-request web app behind "Chai Mine". Guests submit a YouTube link from a form. Each location's display page polls for the newest submission and plays it. When nothing is pending, the page plays a track from a fixed fallback library.

The model covers:

- the two display-page reconcilers:
  - `components/subpage.tsx`, used by the Dagapur page, where a submission interrupts playback;
  - `app/sevoke/page.tsx`, where submissions queue up sorted by timestamp and a 300-second countdown rotates tracks;
- the library selector and the video-id extractor that both pages use;
- the three near-identical submission forms;
- the submit API's handler and timestamp formatter;
- the Dagapur path-to-name transform;
- the profile countdown.

Modelling choices:

- **Handlers are atomic steps.** Each React handler, poll answer or timer tick is one method on a class whose fields are the component's state cells.
- **Randomness is a parameter.** `Math.random` becomes an index `pick` into the candidate list. The current time becomes an integer `now`.
- **Network answers are inputs.** A poll answer is a `PollResult`: a status with the song, `None` when the JSON does not parse, or a network error. A form request's outcome is a `Reply`.

Files:

| file | module | models |
|---|---|---|
| `wrappers.dfy` | `Wrappers` | `Option` |
| `text.dfy` | `Text` | decimal rendering of numbers, the inverse parse, `padStart` |
| `videoid.dfy` | `VideoId` | `getYouTubeVideoId`, following the JavaScript regex's matching rules |
| `library.dfy` | `Library` | song records, the fallback library and `getRandomSong` |
| `subpage.dfy` | `SubPage` | class `SubPage`, the interrupting reconciler |
| `sevoke.dfy` | `Sevoke` | class `SevokePage`, the sorted-queue reconciler; the stable sort, the countdown, `formatTime` |
| `youtubelink.dfy` | `YoutubeLink` | the form validator regex: its language, plus a deterministic check proved equal to it |
| `formcommon.dfy` | `FormCommon` | `trim`, the submit guard, the messages, request and reply shapes |
| `homeform.dfy`, `libtrialform.dfy`, `trialform.dfy` | one module each | the three forms as classes |
| `submitapi.dfy` | `SubmitApi` | `formatDateToIST` and the API handler |
| `dagapur.dfy` | `Dagapur` | pathname to location name |
| `profile.dfy` | `Profile` | the 72-hour profile countdown |

### Facts about the code worth knowing

- **The submit API never answers 400 and has no duplicate check.**
  - `SubmitApi.Handle` answers only 405, 200 or 500.
  - So the forms' 400 branches (the duplicate message, the generic message) cannot be reached from the real handler. `HomeForm.ErrorsFromHandler` proves this.
- **The Dagapur page never appends to its queue.**
  - `components/subpage.tsx` only maps, filters, slices or clears the queue; no handler adds a new submission to it.
  - So from the initial `[]` the queue stays empty, whatever events arrive. `SubPage.QueueStaysEmpty` proves this.
- **The latest-song endpoint answers 404 when nothing is stored, not 204.**
  - `pages/api/getLatest.ts` is not part of this model.
  - The page code treats 204 and 404 differently, and the model keeps both branches.
- **There is no one-track library fallback.** An empty candidate list would make `availableSongs[randomIndex]` undefined. The model states the candidate list's non-emptiness as a precondition (`pick < |Available(...)|`). `Library.CandidatesNeverEmpty` proves that the real library always leaves at least four candidates.

## Model

| member | source | states |
|---|---|---|
| Text.NatToString | app/sevoke/page.tsx:155 | The decimal text of a number is digits only, with no leading zero except for zero itself, and is one character long exactly below 10 |
| Text.ParseNatToString | app/sevoke/page.tsx:155 | Reading the decimal text back gives the number (round trip) |
| Text.PadStart | app/sevoke/page.tsx:155 | `padStart` gives length `max(len, width)`, keeps the text as a suffix and fills the front with the fill character |
| Text.TwoDigitPad | app/sevoke/page.tsx:155 | A number below 100 padded to two digits is two digits that read back as the number |
| VideoId.MarkerLength | components/subpage.tsx:155 | A match of one of the six marker alternatives lies within the string |
| VideoId.LineEnd | components/subpage.tsx:155 | The leading `.*` reaches the first line terminator, and none lies before it |
| VideoId.LastMarker | components/subpage.tsx:155 | Finds the rightmost marker at or before the bound, or reports that none exists |
| VideoId.IdRun | components/subpage.tsx:155 | The second group is the maximal run after the marker of characters other than `#`, `&`, `?` |
| VideoId.GetYouTubeVideoId | components/subpage.tsx:152-158 | An empty url gives null; any result is exactly 11 characters, none of them `#`, `&` or `?` |
| VideoId.RegexMatchesIff | components/subpage.tsx:154-156 | The regex matches exactly when a marker occurs before the first line terminator |
| VideoId.LastMarkerUnique | components/subpage.tsx:154-156 | A reachable marker with no marker to its right is the one the greedy `.*` selects |
| VideoId.VideoIdSound | components/subpage.tsx:152-158 | A returned id is the regex's second group, for the rightmost marker |
| VideoId.VideoIdComplete | components/subpage.tsx:152-158 | Whenever the regex matches with an 11-character second group, that group is returned |
| VideoId.LineEndOfSingleLine | components/subpage.tsx:155 | On a string without line terminators `.*` reaches the end |
| VideoId.IdRunIs | components/subpage.tsx:155 | A run of id characters ending at a delimiter or at the end is the captured group |
| VideoId.VideoIdOfSingleLine | components/subpage.tsx:152-158 | For a one-line url with a rightmost marker and the run after it, the result is that run exactly when it has 11 characters |
| VideoId.VideoIdOfParts | components/subpage.tsx:152-158 | A one-line url made of a prefix, a marker matched right after it and not reopened inside itself, a marker-free run of id characters, and a marker-free tail that is empty or starts with `#`, `&` or `?`, gives the run exactly when it has 11 characters |
| VideoId.ShortLinkId | components/subpage.tsx:152-158 | `https://youtu.be/` followed by a plain id and tail gives the id exactly when it has 11 characters |
| VideoId.WatchLinkId | components/subpage.tsx:152-158 | `https://www.youtube.com/watch?v=` followed by a plain id and tail gives the id exactly when it has 11 characters |
| VideoId.VideoIdOfShortLink | components/subpage.tsx:152-158 | `https://youtu.be/abcdefghijk` gives `abcdefghijk` |
| VideoId.VideoIdOfTenCharLink | components/subpage.tsx:152-158 | A `watch?v=` link with a 10-character id gives null |
| Library.Available | components/subpage.tsx:68-70 | The filter keeps exactly the library entries whose id differs from the last played id |
| Library.AvailableSize | components/subpage.tsx:68-70 | With distinct ids, excluding the last id removes one entry if it is a library id and none otherwise |
| Library.GetRandomSong | components/subpage.tsx:67-73 | The chosen track is a library entry whose id differs from the last played one |
| Library.LibraryShape | scripts/song/library.tsx:2-29 | The library has 5 entries with the pairwise distinct ids `lib_1`, `lib_2`, `lib_3`, `lib_5`, `lib_6` |
| Library.CandidatesNeverEmpty | scripts/song/library.tsx:2-29 | Whatever the last id is, at least four candidates remain, so the selector is never undefined |
| Library.PlaceLibrarySong | components/subpage.tsx:85-90 | The selector's entry placed at a location is a library song there, its id is a library id other than the last one, and it carries the location and the time |
| Library.LibrarySongPlayable | scripts/song/library.tsx:2-29 | A library song placed anywhere has a link with a video id |
| Library.LibraryLinksPlayable | scripts/song/library.tsx:5-26 | Every library link yields an 11-character id under the extractor |
| Library.Link1Id | scripts/song/library.tsx:5 | The first link yields `dQw4w9WgXcQ` |
| Library.Link2Id | scripts/song/library.tsx:10 | The second link yields `L_jWHffIx5E` |
| Library.Link3Id | scripts/song/library.tsx:15 | The first short link yields `izGwDsrQ1eQ`; the `?si=` tail is cut |
| Library.Link5Id | scripts/song/library.tsx:20-21 | The playlist link yields `kJQP7kiw5Fk`; the `&list=` tail is cut |
| Library.Link6Id | scripts/song/library.tsx:26 | The second short link yields `60ItHLz5WEA` |
| SubPage.ReplaceById | components/subpage.tsx:52-54 | Each entry with the new song's id is replaced in place, the others are kept, and the length is unchanged |
| SubPage.RemoveById | components/subpage.tsx:59 | The filter keeps exactly the entries with another id and never lengthens the queue |
| SubPage.RemoveAfterReplace | components/subpage.tsx:52-59 | Replacing and then removing an id equals removing it |
| SubPage.SubPage.constructor | components/subpage.tsx:33-42 | The initial state cells: no song, empty queue, key 0, initial load |
| SubPage.SubPage.PlayLibrarySong | components/subpage.tsx:85-94 | The library fallback: the selector's entry, other than the last one, placed at this location, with its id remembered and the library flag set; the queue and key are kept |
| SubPage.SubPage.HandleNewSong | components/subpage.tsx:45-65 | A library song or an empty queue: the submission plays, the key rises by 1, the queue is untouched. Otherwise: queue entries with its id are replaced; if it is the current song, the current song is replaced, the key rises by 1 and the id leaves the queue. The queue never grows |
| SubPage.SubPage.PlayNextSong | components/subpage.tsx:75-95 | The head plays and leaves the queue, the last id clears, and the key rises exactly when the link repeats; an empty queue falls back to the library |
| SubPage.SubPage.HandleError | components/subpage.tsx:164-175 | The library fallback, with the queue kept; the new current link has a video id |
| SubPage.SubPage.HandleResetClick | components/subpage.tsx:181-192 | The queue empties, the library fallback plays and the initial load ends |
| SubPage.SubPage.CheckCurrentSong | components/subpage.tsx:97-103 | A current link without a video id is replaced through the error handler; afterwards the current song is playable |
| SubPage.SubPage.OnPoll | components/subpage.tsx:106-130 | A 200 for this location has the effect of `handleNewSong` in both its branches (over a library song or an empty queue it plays and the key rises by 1; otherwise queue entries with its id are replaced, and a matching current song is replaced, its id leaves the queue and the key rises by 1); no 200 changes the last library id; a 204, or any other status during the initial load, plays the library; everything else changes nothing; the initial load always ends; the key never decreases |
| SubPage.QueueStaysEmpty | components/subpage.tsx:34-192 | From a fresh page, after any run of poll answers, submissions, next-song, player-error, reset and link-check events, the queue is still empty |
| Sevoke.SevokeLibraryIsShared | app/sevoke/page.tsx:14-41 | The page's local library equals the shared one |
| Sevoke.InsertPosition | app/sevoke/page.tsx:103-109 | The insertion point follows every entry with a timestamp not above the new one and precedes the first later one |
| Sevoke.StableSort | app/sevoke/page.tsx:104-108 | The sort result is a permutation of its input and is sorted by timestamp |
| Sevoke.InsertKeepsSorted | app/sevoke/page.tsx:103-109 | Inserting into a sorted queue keeps it sorted and adds exactly the new song |
| Sevoke.SortSorted | app/sevoke/page.tsx:104-108 | Sorting a sorted queue changes nothing |
| Sevoke.MergeIsStableInsert | app/sevoke/page.tsx:103-109 | Sorting `[...queue, data]` of a sorted queue puts `data` after every entry with an equal or earlier timestamp and before the later ones, so ties keep arrival order |
| Sevoke.InsertKeepsDistinct | app/sevoke/page.tsx:99-109 | Inserting a song whose id is not queued keeps the ids distinct |
| Sevoke.InsertIds | app/sevoke/page.tsx:99-109 | After the insertion an id is queued exactly when it was queued before or is the new song's |
| Sevoke.InsertKeepsQueueShape | app/sevoke/page.tsx:99-109 | The merge keeps the queue sorted, with distinct ids, all at Sevoke, and without the playing id |
| Sevoke.MergedQueue | app/sevoke/page.tsx:99-110 | Sorting `[...queue, data]` for a new id gives the stable insertion, keeps the queue's shape, adds exactly `data` and queues its id |
| Sevoke.PoppedQueue | app/sevoke/page.tsx:63-66 | Taking the head off keeps the queue sorted, distinct and at Sevoke, and the head's id is no longer queued |
| Sevoke.NextRemaining | app/sevoke/page.tsx:124-130 | One tick keeps the countdown in 1..300 and reaches 300 exactly from 1 |
| Sevoke.CountdownDescends | app/sevoke/page.tsx:124-130 | From `t`, each of the next `t-1` ticks lowers the countdown by one |
| Sevoke.CountdownPeriod | app/sevoke/page.tsx:123-131 | From 300, after `300c+j` ticks the countdown shows `300-j`, and the tick that sees a value of at most 1 is every 300th |
| Sevoke.AfterTicksSplit | app/sevoke/page.tsx:123-131 | Ticks compose: `m+n` ticks are `m` ticks followed by `n` |
| Sevoke.FormatTime | app/sevoke/page.tsx:152-156 | `formatTime`; characterized by `Sevoke.FormatTimeRoundTrip` |
| Sevoke.FormatTimeRoundTrip | app/sevoke/page.tsx:152-156 | `formatTime(s)` is a colon between the minutes and two digits. The minutes part is the plain decimal of `s div 60` (no leading zero) and reads back as it; the two digits read back as `s mod 60` |
| Sevoke.FormatTimeUnderTen | app/sevoke/page.tsx:152-156 | For single-digit minutes and seconds the text is `m:0s` |
| Sevoke.FormatTimeFullRotation | app/sevoke/page.tsx:152-156 | 300 gives "5:00" |
| Sevoke.FormatTimeOneMinuteOne | app/sevoke/page.tsx:152-156 | 61 gives "1:01" |
| Sevoke.SevokePage.constructor | app/sevoke/page.tsx:44-51 | The initial state cells: no song, empty queue, 300 seconds, initial load; the invariant holds |
| Sevoke.SevokePage.PlayLibrarySong | app/sevoke/page.tsx:67-74 | A library entry other than the last one plays at Sevoke and its id is remembered |
| Sevoke.SevokePage.PlayNextSong | app/sevoke/page.tsx:61-77 | The head is popped and the last id clears, or an empty queue plays a library entry different from the last one; the countdown restarts at 300; the queue invariant is kept |
| Sevoke.SevokePage.OnPoll | app/sevoke/page.tsx:80-120 | Only a 200 answer whose song is at Sevoke has an effect. Before anything plays, the first such answer starts a library song and ends the initial load, and later ones play the answer. Once something plays, a new id is inserted in timestamp order and a known id changes nothing |
| Sevoke.SevokePage.MergeSong | app/sevoke/page.tsx:99-110 | A song is added exactly when its id is neither queued nor playing, at its stable position; afterwards its id is queued or playing, so a second delivery is a no-op |
| Sevoke.SevokePage.Tick | app/sevoke/page.tsx:123-131 | The countdown steps as `NextRemaining`; above 1 nothing else changes; at 1 or below the next song plays |
| Sevoke.RepeatedAnswerQueuedOnce | app/sevoke/page.tsx:85-110 | The same song delivered three times from a fresh page is queued at most once, and not at all if it is the song playing |
| YoutubeLink.IsValidYoutubeLink | app/page.tsx:31-35 | `isValidYoutubeLink`; characterized by `YoutubeLink.ValidLinkIff` |
| YoutubeLink.ValidLinkIff | app/page.tsx:31-35 | The left-to-right check accepts exactly the regex's language: an optional `http://` or `https://`, an optional `www.`, then `youtube.com`, `youtube` or `youtu.be`, a slash, and one or more characters without a line terminator |
| YoutubeLink.ValidLinkComplete | app/page.tsx:31-35 | Every string of that language passes the check |
| YoutubeLink.ValidLinkSound | app/page.tsx:31-35 | Every string passing the check is in that language, with the alternatives it took |
| YoutubeLink.SchemeChosen | app/page.tsx:33 | In a match, the optional scheme can only be the one the check strips |
| YoutubeLink.WwwChosen | app/page.tsx:33 | In a match, the optional `www.` can only be the one the check strips |
| YoutubeLink.HostChosen | app/page.tsx:33 | In a match, the host alternative is the one the check finds |
| YoutubeLink.ValidLinkHasHost | app/page.tsx:33 | A valid link has its host's `y` after the optional prefixes |
| YoutubeLink.ShortLinkAccepted | app/page.tsx:31-35 | `https://youtu.be/x` is accepted |
| YoutubeLink.BareHostAccepted | app/page.tsx:33 | `youtube/x` is accepted, because `youtu\.?be` also matches `youtube` |
| YoutubeLink.EmptyTailRejected | app/page.tsx:33 | `https://www.youtube.com/` is rejected: `.+` needs a character |
| YoutubeLink.LineBreakRejected | app/page.tsx:33 | A line break after the slash is rejected: `.` does not match it and `$` is the end of input |
| FormCommon.TrimStart | app/page.tsx:43 | Drops exactly the leading white space |
| FormCommon.TrimEnd | app/page.tsx:43 | Drops exactly the trailing white space |
| FormCommon.Trim | app/page.tsx:43 | `trim()`; characterized by `FormCommon.TrimStart`, `FormCommon.TrimEnd` and `FormCommon.TrimEmptyIffBlank` |
| FormCommon.TrimEmptyIffBlank | app/page.tsx:43 | `link.trim()` is empty exactly when the link is all white space |
| FormCommon.CanSubmit | app/page.tsx:41-46 | The submit guard; characterized by `FormCommon.CanSubmitIff` |
| FormCommon.CanSubmitIff | app/page.tsx:41-46 | The guard holds exactly when location and name are non-empty and the link is valid; the trim test is implied by validity |
| FormCommon.SuccessMessage | app/page.tsx:79-81 | The success text is the fixed prefix followed by the display name |
| FormCommon.MessagesDistinct | app/page.tsx:66-92 | The duplicate, generic, unexpected and fill-in messages differ from one another |
| HomeForm.DisplayName | app/page.tsx:23-25 | "Sevoke" shows as "Sevoke Road"; any other location shows as itself |
| HomeForm.SubmitError | app/page.tsx:62-93 | The message the `try`/`catch` leaves for a reply; characterized by `HomeForm.SubmitErrorCases` |
| HomeForm.SubmitErrorCases | app/page.tsx:62-93 | Success exactly for an ok reply whose JSON parses; the duplicate message exactly for a 400 with `duplicate_song`; the generic message exactly for another 400 with a body; otherwise the unexpected message |
| HomeForm.ErrorsFromHandler | pages/api/submitForm.ts:36-66 | Against the real handler a sent form succeeds exactly when the insert does, and otherwise shows the unexpected message |
| HomeForm.HomeForm.constructor | app/page.tsx:13-19 | Every field starts empty, with validation hidden |
| HomeForm.HomeForm.HandleLocationSelect | app/page.tsx:23-29 | Sets the location and its display name; nothing else changes |
| HomeForm.HomeForm.HandleSubmit | app/page.tsx:37-96 | A request is sent exactly when the guard holds, carrying the current fields. Without a request, validation shows and the error clears. An error leaves its message and the fields. Success sets the message with the previous display name and clears every field |
| HomeForm.HomeForm.ApplyOutcome | app/page.tsx:53-94 | What the `try`/`catch` leaves: the error message, or the success message and the cleared fields |
| LibTrialForm.DisplayName | lib/trial/page.tsx:64-71 | "Sevoke" shows as "Sevoke Road"; any other location shows as itself |
| LibTrialForm.SubmitError | lib/trial/page.tsx:108-131 | The message the `try`/`catch` leaves for a reply; characterized by `LibTrialForm.SubmitErrorCases` |
| LibTrialForm.SubmitErrorCases | lib/trial/page.tsx:108-131 | A non-ok reply shows the server's `error` when it is a non-empty string, else the generic message; a missing body or a throw shows the unexpected message; success exactly for an ok parsed reply |
| LibTrialForm.ErrorsFromHandler | pages/api/submitForm.ts:36-66 | Against the real handler a failed insert shows "Unable to save data" |
| LibTrialForm.LibTrialForm.constructor | lib/trial/page.tsx:13-19 | Every field starts empty, with validation hidden |
| LibTrialForm.LibTrialForm.HandleLocationSelect | lib/trial/page.tsx:64-75 | Both branches set the location and its display name |
| LibTrialForm.LibTrialForm.HandleSubmit | lib/trial/page.tsx:83-133 | A request is sent exactly when the guard holds; invalid input leaves the error empty; failure shows the error; success clears the fields and sets the message with the previous display name |
| LibTrialForm.LibTrialForm.ApplyOutcome | lib/trial/page.tsx:99-131 | What the `try`/`catch` leaves |
| TrialForm.DisplayName | app/trial/page.tsx:83 | "Sevoke" shows as "Sevoke Road Trial"; anything else as "Dagapur Trial" |
| TrialForm.SubmitError | app/trial/page.tsx:126-146 | The message the `try`/`catch` leaves for a reply; characterized by `TrialForm.SubmitErrorCases` |
| TrialForm.SubmitErrorCases | app/trial/page.tsx:126-146 | Every non-ok reply, missing body or throw gives the unexpected message; success exactly for an ok parsed reply |
| TrialForm.ErrorsFromHandler | pages/api/submitForm.ts:36-66 | Against the real handler the form succeeds exactly when the insert does |
| TrialForm.TrialForm.constructor | app/trial/page.tsx:13-19 | Every form field starts empty, with validation hidden |
| TrialForm.TrialForm.HandleLocationSelect | app/trial/page.tsx:81-87 | Sets the location and its trial display name |
| TrialForm.TrialForm.HandleSubmit | app/trial/page.tsx:95-147 | Invalid input gets the fill-in message and sends nothing; a sent request either fails with the unexpected message or succeeds and clears every field |
| TrialForm.TrialForm.ApplyOutcome | app/trial/page.tsx:117-146 | What the `try`/`catch` leaves |
| SubmitApi.IstShift | pages/api/submitForm.ts:17-19 | The offset is 0, so the instant is unchanged despite the IST comment. Only this fact is recorded: `Handle` and `FormatDateToIst` take the calendar fields of the unshifted instant as input |
| SubmitApi.TwelveHour | pages/api/submitForm.ts:25-30 | The hour is in 1..12: 0 and 12 give 12, and every other hour gives `h mod 12` |
| SubmitApi.Meridiem | pages/api/submitForm.ts:27 | "pm" exactly from hour 12 on, else "am" |
| SubmitApi.MinuteField | pages/api/submitForm.ts:31 | Minutes 0..59 become two digits that read back as the minutes |
| SubmitApi.HourRoundTrip | pages/api/submitForm.ts:25-30 | The 12-hour hour and the suffix together give back the 24-hour hour |
| SubmitApi.FormatDateToIst | pages/api/submitForm.ts:17-34 | `formatDateToIST`; characterized by `SubmitApi.FormatDateTail` and `SubmitApi.FormatDateHead` |
| SubmitApi.HourDigits | pages/api/submitForm.ts:29-33 | The 12-hour hour is written with one digit below 10 and two from 10 on |
| SubmitApi.FormatDateTail | pages/api/submitForm.ts:24-33 | The text ends with a space, the hour digits that read back as `TwelveHour(hours)`, a colon, two minute digits that read back as the minutes, a space and `am` or `pm`; everything before that space is `<day> <month> <year>` |
| SubmitApi.FormatDateHead | pages/api/submitForm.ts:21-33 | The text starts with the day's digits, which read back as the day, then a space, the month name and a space. The year's digits, which read back as the year, sit just before the clock's space |
| SubmitApi.Handle | pages/api/submitForm.ts:36-66 | 405 exactly for a non-POST, with nothing inserted. 200 exactly when the body reads and the insert succeeds, storing the fields with the formatted time. Otherwise 500 with `Unable to save data` |
| SubmitApi.NeverBadRequest | pages/api/submitForm.ts:36-66 | The handler never answers 400 |
| Dagapur.ToUpper | app/dagapur/page.tsx:15 | Upper-cases ASCII letters and keeps every other character |
| Dagapur.SplitOnSlash | app/dagapur/page.tsx:14 | Always at least one piece, none containing a slash |
| Dagapur.SplitRoundTrip | app/dagapur/page.tsx:14 | Joining the pieces with slashes gives back the input |
| Dagapur.CapitalizeAll | app/dagapur/page.tsx:15 | Each segment is capitalized, and the number of segments is kept |
| Dagapur.ScanAt | app/dagapur/page.tsx:12-16 | The character-level reading: a slash becomes a space, a segment's first character is upper-cased, others are kept |
| Dagapur.SplitJoinIsScan | app/dagapur/page.tsx:13-16 | Split, capitalize and join equals that character-level reading |
| Dagapur.PathToLocation | app/dagapur/page.tsx:12-16 | The page's location name; characterized by `Dagapur.PathToLocationSpec` |
| Dagapur.PathToLocationSpec | app/dagapur/page.tsx:12-16 | The name has length `max(len-1, 0)`; each character after the first becomes a space if it is a slash, upper-case if it opens a segment, and is kept otherwise |
| Dagapur.NullPathIsEmpty | app/dagapur/page.tsx:12 | A null path gives "" |
| Dagapur.DagapurRoute | app/dagapur/page.tsx:12-16 | "/dagapur" gives "Dagapur" |
| Profile.Decompose | app/sevoke/profile.tsx:26-30 | For a positive remaining time, minutes and seconds are below 60 and `h*3600000 + m*60000 + s*1000 <= remaining < that + 1000` |
| Profile.CountdownText | app/sevoke/profile.tsx:31 | The `<h>h <m>m <s>s` text; characterized by `Profile.CountdownTextRoundTrip` and `Profile.CountdownNeverExpired` |
| Profile.CountdownTextRoundTrip | app/sevoke/profile.tsx:26-31 | The digit runs before `h`, between `h ` and `m`, and between `m ` and the final `s` read back as the hours, minutes and seconds; minutes and seconds take one or two digits |
| Profile.CountdownNeverExpired | app/sevoke/profile.tsx:21-31 | A countdown text never reads "Expired" |
| Profile.ProfileTimer.constructor | app/sevoke/profile.tsx:4 | `timeLeft` starts empty and the stored end time is whatever storage held |
| Profile.ProfileTimer.Mount | app/sevoke/profile.tsx:8-17 | With nothing stored, the end time becomes now + 72*3600*1000 and is stored; otherwise the stored time is reused |
| Profile.ProfileTimer.Tick | app/sevoke/profile.tsx:18-32 | At or past the end: "Expired", storage cleared and the interval stopped; otherwise the `<h>h <m>m <s>s` text of the decomposition |

## Left out

- Network and database
  - `fetch` calls become inputs: a `PollResult` or a `Reply`.
  - The MongoDB connection and insert are a `dbSucceeds` flag.
  - `pages/api/getLatest.ts`, `pages/api/showLatest.ts`, `pages/api/clear-database.ts` and `lib/mongodb.ts` are not part of this model.
- React scheduling
  - Effects re-run on state changes, intervals, and updater functions read possibly stale closure values.
  - Each handler or tick is one atomic step on the current state. In particular, `playNextSong` called from inside the countdown's state updater is modelled as acting on the current queue.
- `Date`, `toLocaleString`, `toISOString` and timestamp parsing
  - Timestamps are integers.
  - The calendar fields that `formatDateToIST` reads (including the month name from the locale) are inputs.
  - A `NaN` timestamp in the sort comparator is not modelled.
- `isValidYouTubeLink` state cell in `components/subpage.tsx`: it is set to `false` and back to `true` in the same handler and is only rendered, so it is always `true` after each step.
- The `YouTube` player, JSX rendering, `console` output, `detailsRef` and the router.
- Geolocation code in the trial forms, authentication pages, layouts, install prompt and app context: browser APIs, environment lookups and UI only.
- `formatTimestamp` in `components/subpage.tsx`: it is locale formatting.
- The copy of `getYouTubeVideoId` in `app/sevoke/page.tsx` (lines 145-150) only feeds the player. It is the same function without the empty-url guard. The guard makes no difference, since an empty string contains no marker, so `VideoId.GetYouTubeVideoId` stands for both.
- VideoId.GetYouTubeVideoId: lengths are counted in Unicode characters, while JavaScript's `match[2].length === 11` counts UTF-16 code units, so the results differ for ids containing characters outside the Basic Multilingual Plane (an emoji counts once here and twice in JavaScript). The regex's other character classes are unaffected.
- Dagapur.ToUpper: upper-cases ASCII letters only. JavaScript's `toUpperCase` also maps other letters and can lengthen a character (e.g. "ß" to "SS"), so the length result holds for ASCII paths only.
- FormCommon.JsonBody: an `error` field that is present but not a string (for instance a number, which would be truthy) is not modelled.
- Profile.ProfileTimer.Mount: a stored value is read as a number. `parseInt` of a malformed stored string (`NaN`, which never counts as expired) is not modelled.
- The input handlers that set the form fields as the user types are plain field assignments in the model.
