# REPLAYD clip logic in Dafny

REPLAYD is a small Next.js site where players post YouTube and Twitch clips, vote on
them and browse a feed and a leaderboard. This project models the part of it that
decides things: the clip-URL classifier (`parseClip`), the addresses derived from a
classified clip (thumbnails, the muted hover preview, the overlay player), the
submission form's allow-list and state changes, the optimistic upvote with its
rollback, keyboard navigation between rows, the hover bookkeeping of the
leaderboard, and the `timeAgo`/`domainFrom` helpers of the three pages.

Layout, one module per file:

- `options.dfy` (`Optional`): the `Option` type.
- `strings.dfy` (`Strings`): `split`/`join`, `filter(Boolean)`, JavaScript `trim`.
- `decimal.dfy` (`Decimal`): `String(n)`, `padStart`, and the parser that reads numbers back.
- `urls.dfy` (`Urls`): the parsed-URL record. It also holds `origin`, the `www.`
  strip, `searchParams.get`, and the reading of a query written by the application.
- `parse_clip.dfy` (`ClipParser`): `parseClip` and one lemma per rule.
- `rows.dfy` (`Rows`): the clip row, `domainFrom`, `timeAgo`, display defaults.
- `navigation.dfy` (`Navigation`): the arrow-key index updater shared by both lists.
- `embeds.dfy` (`Embeds`): the two player base addresses.
- `player_modal.dfy` (`PlayerModal`): the overlay's `src`, `embeddable` flag and fallback.
- `leaderboard.dfy` (`Leaderboard`): `getThumb`, `buildEmbedSrc`, the rank label,
  and the component state as a class.
- `feed.dfy` (`Feed`): badges, `thumbFrom`, the vote update and rollback, and the component state as a class.
- `submit_page.dfy` (`SubmitPage`): `isAllowedUrl`, validation, and the form state as a class.
- `home_page.dfy` (`HomePage`): the 24-hour and 7-day cut-offs and `timeAgo` facts.
  `src/app/page.tsx` imports `FeedListClient` (line 3) and also declares a local function
  of that name (line 114), a duplicate binding that TypeScript refuses as the file is written;
  the local list component is not part of this model.

Inputs the code gets from the browser or libraries are parameters:

- `new URL(s)` is `parse: string -> Option<Url>`, with `None` where the constructor throws.
- `encodeURIComponent` is `encode: string -> string`.
- `window.location.hostname` is `window: Option<string>`, with `None` when no window exists.
- `Date.now() - new Date(created_at).getTime()` is one integer, `elapsed`, in milliseconds.
- The answer of a database insert is `InsertResult`: `InsertOk` or `InsertErr(code, message)`.

`domainFrom` and `timeAgo` appear three times in the source with identical bodies.
The keyboard updater appears twice. Each is defined once here, and the table cites one copy.
The player overlay is rendered the same way by both lists (LeaderboardClient.tsx:151 and
FeedListClient.tsx:137): `PlayerModal.Render` of the open row's URL. It is written once, as
`Leaderboard.LeaderboardView.Overlay`; the feed supplies the same URL through `Feed.FeedList.CurrentUrl`.

Two facts about the code that the lemmas make explicit:

- `parseClip` recognises no Twitch VOD or `twitch.tv/clips/` link, and `getThumb` has
  no Twitch thumbnail (`ClipParser.ExampleTwitchVideoUnknown`).
- The submit form's six-host allow-list is independent of `parseClip`, and the two
  differ in both directions (`SubmitPage.AllowedButNotEmbeddable`, `SubmitPage.EmbeddableIsAllowed`).

## Model

| member | source | states |
|---|---|---|
| ClipParser.FirstSegment | src/lib/parseClip.ts:15 | the first segment of `split("/").filter(Boolean)`, when there is one, is non-empty and holds no '/' |
| ClipParser.FirstSegmentIsSegmentAfterSlashes | src/lib/parseClip.ts:15 | `split("/").filter(Boolean)[0]` equals "skip the leading slashes, then take the text up to the next slash", on every path |
| ClipParser.FirstSegmentNone | src/lib/parseClip.ts:14-16 | a path has no segment exactly when it is made only of slashes |
| ClipParser.IdRun | src/lib/parseClip.ts:21 | the greedy `[a-zA-Z0-9_-]` run: a prefix of the text, all id characters, and followed by a non-id character or the end |
| ClipParser.FindShorts | src/lib/parseClip.ts:21 | the leftmost position where "/shorts/" is followed by at least six id characters, and no match before it |
| ClipParser.ShortsId | src/lib/parseClip.ts:21-22 | the captured id has at least six id characters, and there is none exactly when the expression matches nowhere |
| ClipParser.Classify | src/lib/parseClip.ts:10-31 | a YouTube result comes from youtube.com or youtu.be and a Twitch result from clips.twitch.tv, after one "www." is stripped; every id is non-empty |
| ClipParser.ParseClip | src/lib/parseClip.ts:7-35 | a URL the parser rejects is unknown (nothing is thrown); a parsed URL is classified; a recognised clip always has a non-empty id |
| ClipParser.ExactHostsOnly | src/lib/parseClip.ts:10-31 | any host other than the three, after stripping, is unknown |
| ClipParser.YoutuBeRule | src/lib/parseClip.ts:14-16 | youtu.be: leading slashes, a slash-free word, then nothing or a slash gives that word as the id |
| ClipParser.YoutuBeNoSegment | src/lib/parseClip.ts:14-16 | youtu.be with a path of slashes only is unknown |
| ClipParser.WatchRule | src/lib/parseClip.ts:19-20 | youtube.com: a non-empty first `v` value is the id, whatever the path |
| ClipParser.EmptyVFallsThrough | src/lib/parseClip.ts:19-22 | youtube.com: an absent or empty `v` leaves the decision to the Shorts rule |
| ClipParser.ShortsRule | src/lib/parseClip.ts:21-22 | youtube.com without a usable `v`: the id is the whole id-character run after the leftmost matching "/shorts/" |
| ClipParser.NoShortsIsUnknown | src/lib/parseClip.ts:21-31 | youtube.com with neither a usable `v` nor a Shorts match is unknown |
| ClipParser.TwitchClipRule | src/lib/parseClip.ts:26-28 | clips.twitch.tv: the first path segment is the slug |
| ClipParser.TwitchClipNoSegment | src/lib/parseClip.ts:26-28 | clips.twitch.tv with no path segment is unknown |
| ClipParser.ClassifyIgnoresSchemeAndPort | src/lib/parseClip.ts:7-35 | the result depends only on host name, path and query; scheme and port play no part |
| ClipParser.SegmentIdComesFromPath | src/lib/parseClip.ts:14-28 | a youtu.be or Twitch id is a contiguous slice of the path: the text after the leading slashes up to the next slash, so it holds no '/' and no query text |
| ClipParser.ExampleShortLinkWithQuery | src/lib/parseClip.ts:14-16 | https://youtu.be/abc123?t=30 is the video abc123 |
| ClipParser.ExampleShorts | src/lib/parseClip.ts:21-22 | https://www.youtube.com/shorts/abcdef12345 is the video abcdef12345 |
| ClipParser.ExampleEmptyV | src/lib/parseClip.ts:19-22 | https://youtube.com/watch?v= is unknown, not a video with an empty id |
| ClipParser.ExampleTwitchClip | src/lib/parseClip.ts:26-28 | https://clips.twitch.tv/SlugGoesHere is that clip |
| ClipParser.ExampleLookalikeHost | src/lib/parseClip.ts:10-12 | a host that merely contains "youtube.com" is unknown |
| ClipParser.ExampleDoubleWww | src/lib/parseClip.ts:10 | "www.www.youtube.com" keeps one "www." and is unknown |
| ClipParser.ExampleTwitchVideoUnknown | src/lib/parseClip.ts:26-31 | a twitch.tv VOD address is unknown |
| Strings.Split | src/lib/parseClip.ts:15 | `split` on one character gives at least one piece, and no piece contains the separator |
| Strings.SplitJoin | src/lib/parseClip.ts:15 | joining the pieces of a split gives back the string |
| Strings.JoinSplit | src/lib/parseClip.ts:15 | splitting a join of separator-free pieces gives back the pieces |
| Strings.TrimStartSpec | src/app/submit/page.tsx:42-45 | trimming the start removes a whitespace prefix, the longest one |
| Strings.TrimEndSpec | src/app/submit/page.tsx:42-45 | trimming the end removes a whitespace suffix, the longest one |
| Strings.Trim | src/app/submit/page.tsx:42-45 | `trim()` leaves no whitespace at either end, and is empty exactly when the input is all whitespace |
| Strings.TrimIdempotent | src/app/submit/page.tsx:42-45 | trimming twice is trimming once |
| Decimal.IntToStringRoundTrip | src/components/LeaderboardClient.tsx:23-27 | the digits a template literal writes for any integer, negative ones included, read back as that integer |
| Decimal.PadStart | src/components/LeaderboardClient.tsx:120 | `padStart` reaches the width, or keeps a longer string, by prepending fill characters |
| Urls.Origin | src/components/LeaderboardClient.tsx:32 | `origin` is scheme, "//" and host for the special schemes, "null" otherwise |
| Urls.StripWww | src/lib/parseClip.ts:10 | `replace(/^www\./, "")` removes a leading "www." and leaves any other host as it is |
| Urls.StripWwwOnce | src/lib/parseClip.ts:10 | only one "www." is removed |
| Urls.FindParam | src/lib/parseClip.ts:19 | the index of the first pair with the name, and none exactly when no pair has it |
| Urls.GetParam | src/lib/parseClip.ts:19 | `searchParams.get` is null exactly when no pair has the name, and otherwise returns the value of a pair with that name |
| Urls.GetParamFirst | src/lib/parseClip.ts:19 | a later pair never shadows the first one with the name |
| Urls.ParamsRoundTrip | src/components/PlayerModal.tsx:30-34 | a query of safe pairs written after a '?' reads back as exactly those pairs |
| Rows.DomainFrom | src/components/LeaderboardClient.tsx:16-19 | the host name with one leading "www." removed, "" when the URL does not parse |
| Rows.DomainOfClassifiedClip | src/components/LeaderboardClient.tsx:16-19 | the domain shown for a recognised clip is youtube.com, youtu.be or clips.twitch.tv |
| Rows.AgeOf | src/components/LeaderboardClient.tsx:20-28 | minutes below one hour (negative ones included), hours from 1 to 47 below 48 hours, otherwise whole days (at least 2) |
| Rows.TimeAgo | src/components/FeedListClient.tsx:25-33 | the label reads back as exactly the bucket and count `AgeOf` picks |
| Rows.TimeAgoInjective | src/app/page.tsx:21-29 | two ages show the same label exactly when they have the same bucket and count |
| Rows.TitleShown | src/components/LeaderboardClient.tsx:124 | a missing or empty title shows "Untitled"; any other is shown unchanged |
| Rows.VotesShown | src/components/LeaderboardClient.tsx:126 | null votes show as 0; other counts unchanged |
| HomePage.Cutoffs | src/app/page.tsx:37-39 | the trending cut-off is 86,400,000 ms before now and the week cut-off seven times as far back, so it is the earlier one and the 24-hour window lies inside the 7-day window |
| HomePage.DaysLabel | src/app/page.tsx:26-27 | from two days on, the label is floor(elapsed / 86,400,000) followed by "d" |
| HomePage.MinutesLabel | src/app/page.tsx:21-23 | below one hour the label counts minutes, and a future date gives a negative count |
| Navigation.NextIndex | src/components/LeaderboardClient.tsx:68-74 | back keys step down but stay at the first row; forward keys step up but stay at the last row; other keys do nothing; an index in range stays in range |
| Navigation.BackThenForward | src/components/LeaderboardClient.tsx:68-74 | back then forward returns to the row, except from the first row |
| Navigation.ForwardThenBack | src/components/LeaderboardClient.tsx:68-74 | forward then back returns to the row, except from the last row |
| Navigation.PressesBack | src/components/FeedListClient.tsx:71-73 | k back presses from row i reach row i - k, or the first row |
| Navigation.PressesForward | src/components/FeedListClient.tsx:74-77 | k forward presses reach row i + k, or the last row |
| Navigation.OpenAfterKey | src/components/PlayerModal.tsx:14-20 | Escape closes the overlay, arrows move the open index only while one is open, and the index stays in range |
| PlayerModal.PlayerSrc | src/components/PlayerModal.tsx:27-35 | the player address is empty exactly for an unknown clip |
| PlayerModal.Render | src/components/PlayerModal.tsx:22-61 | null or "" renders nothing; a player is shown exactly for a non-empty URL of a recognised clip; otherwise the fallback links to the URL unchanged |
| PlayerModal.YouTubeSrcShape | src/components/PlayerModal.tsx:30 | the YouTube player address is the base, the id, '?' and the pairs autoplay=1, rel=0, modestbranding=1 |
| PlayerModal.YouTubePlayerPairs | src/components/PlayerModal.tsx:30 | for an id without '?' or '#', the query reads back as exactly those three pairs |
| PlayerModal.YouTubePlayerQuery | src/components/PlayerModal.tsx:28-30 | the YouTube player has autoplay=1, rel=0, modestbranding=1 and no mute parameter |
| PlayerModal.TwitchSrcShape | src/components/PlayerModal.tsx:33-34 | the Twitch player address is the base, '?' and the pairs clip, parent and autoplay=true |
| PlayerModal.TwitchPlayerPairs | src/components/PlayerModal.tsx:33-34 | for a slug and host without '&' or '#', the query reads back as exactly those three pairs |
| PlayerModal.TwitchPlayerQuery | src/components/PlayerModal.tsx:31-34 | clip is the slug, parent the encoded host ("localhost" with no window), autoplay=true, and no muted parameter |
| Leaderboard.GetThumb | src/components/LeaderboardClient.tsx:29-33 | the YouTube still for a YouTube clip; otherwise the origin's favicon; "/favicon.ico" exactly when the URL does not parse |
| Leaderboard.BuildEmbedSrc | src/components/LeaderboardClient.tsx:34-44 | null exactly for an unknown clip, so a non-empty URL has a preview exactly when the overlay would embed it |
| Leaderboard.PreviewYouTubeShape | src/components/LeaderboardClient.tsx:37 | the YouTube preview is the base, the id, '?' and six pairs |
| Leaderboard.PreviewYouTubeRead | src/components/LeaderboardClient.tsx:37 | for a safe id, its query reads back as exactly those six pairs |
| Leaderboard.PreviewYouTubeQuery | src/components/LeaderboardClient.tsx:36-38 | the YouTube preview has autoplay=1, mute=1, playsinline=1 and controls=0 |
| Leaderboard.PreviewTwitchShape | src/components/LeaderboardClient.tsx:40-41 | the Twitch preview is the base, '?' and four pairs |
| Leaderboard.PreviewTwitchRead | src/components/LeaderboardClient.tsx:40-41 | for a safe slug and host, its query reads back as exactly those four pairs |
| Leaderboard.PreviewTwitchQuery | src/components/LeaderboardClient.tsx:39-42 | the Twitch preview has clip = the slug, parent = the encoded host, and muted=true |
| Leaderboard.PreviewMutedPlayerNot | src/components/LeaderboardClient.tsx:34-44 | for the same YouTube clip whose id holds no '?' or '#', the hover preview is muted but the overlay player has no mute parameter |
| Leaderboard.MedalOf | src/components/LeaderboardClient.tsx:119 | rows 0, 1 and 2 get gold, silver and bronze, and only they get a medal |
| Leaderboard.MedalsAreTop10 | src/components/LeaderboardClient.tsx:115-119 | medal rows are top-ten rows, and rows past the tenth have neither |
| Leaderboard.RankLabel | src/components/LeaderboardClient.tsx:120 | "#" then digits that read back as i + 1; three characters exactly below rank 100; a leading '0' exactly below rank 10, so no padding beyond two digits |
| Leaderboard.RankDigits | src/components/LeaderboardClient.tsx:120 | padding the rank to two digits keeps its value, and adds a leading '0' exactly below 10 |
| Leaderboard.Nick | src/components/LeaderboardClient.tsx:102 | the trimmed author name, or "Unknown Player" when it is null or blank; never empty, never padded |
| Leaderboard.LeaderboardView.constructor | src/components/LeaderboardClient.tsx:49-53 | nothing open, hovered, active or pending |
| Leaderboard.LeaderboardView.Open | src/components/LeaderboardClient.tsx:116 | clicking a row opens it; hover state unchanged |
| Leaderboard.LeaderboardView.KeyDown | src/components/LeaderboardClient.tsx:65-78 | the open index becomes `OpenAfterKey` of the old one; hover state unchanged |
| Leaderboard.LeaderboardView.RowEnter | src/components/LeaderboardClient.tsx:80-85 | on a hovering device the row becomes hovered and its timeout replaces any pending one; otherwise nothing changes |
| Leaderboard.LeaderboardView.TimerFires | src/components/LeaderboardClient.tsx:84 | a pending timeout makes its row the active preview |
| Leaderboard.LeaderboardView.RowLeave | src/components/LeaderboardClient.tsx:86-91 | cancels the pending timeout; clears the active and hovered ids only if they are this row's; afterwards this row shows no preview |
| Leaderboard.LeaderboardView.PreviewOf | src/components/LeaderboardClient.tsx:104-105 | a preview address exists only for the active row of a hovering device, and only for a recognised clip; while shown, it is exactly `buildEmbedSrc(r.url)` as written |
| Leaderboard.LeaderboardView.CurrentUrl | src/components/LeaderboardClient.tsx:94 | the open row's URL, null exactly when no row is open |
| Leaderboard.LeaderboardView.Overlay | src/components/LeaderboardClient.tsx:151 | with no open row the overlay renders nothing |
| Leaderboard.EnterThenWait | src/components/LeaderboardClient.tsx:80-85 | entering a row and letting its timeout fire shows its preview exactly on a hovering device |
| Leaderboard.EnterThenLeave | src/components/LeaderboardClient.tsx:80-91 | leaving before the timeout fires leaves no active preview and no pending timeout |
| Feed.IsNewByAge | src/components/FeedListClient.tsx:40-42 | a clip is new exactly when `timeAgo` shows minutes or "1h", i.e. under 7,200,000 ms |
| Feed.HotAfterIncrement | src/components/FeedListClient.tsx:118 | a vote never removes HOT, and the 25th vote earns it |
| Feed.ThumbFrom | src/components/FeedListClient.tsx:47-51 | the feed thumbnail is always the leaderboard thumbnail; the extra non-empty-id test never changes the result |
| Feed.Increment | src/components/FeedListClient.tsx:85 | votes become (votes ?? 0) + 1; every other field is kept |
| Feed.Decrement | src/components/FeedListClient.tsx:88 | votes become max(0, (votes ?? 1) - 1); every other field is kept |
| Feed.IncrementVotes | src/components/FeedListClient.tsx:85 | same length; rows with the clip's id are incremented; all other rows are unchanged |
| Feed.RollbackVotes | src/components/FeedListClient.tsx:88 | same length; rows with the clip's id are decremented; all other rows are unchanged |
| Feed.RollbackUndoesIncrement | src/components/FeedListClient.tsx:85-88 | a vote and its rollback restore every row; a null count comes back as 0 |
| Feed.RollbackRestoresList | src/components/FeedListClient.tsx:85-88 | with non-null, non-negative counts, the rollback gives back exactly the list before the vote |
| Feed.RollbackFloorsNegative | src/components/FeedListClient.tsx:88 | a negative count is not restored: the rollback leaves 0 |
| Feed.RollbackCommutes | src/components/FeedListClient.tsx:83-93 | rolling back one clip's vote commutes with the optimistic update of another clip |
| Feed.AlertFor | src/components/FeedListClient.tsx:90-91 | "already upvoted" exactly for code 23505 |
| Feed.FeedList.constructor | src/components/FeedListClient.tsx:53-55 | the list starts as the given rows with nothing open |
| Feed.FeedList.Open | src/components/FeedListClient.tsx:111 | clicking a row opens it; the rows are unchanged |
| Feed.FeedList.KeyDown | src/components/FeedListClient.tsx:67-81 | the open index becomes `OpenAfterKey` of the old one; the rows are unchanged |
| Feed.FeedList.BeginUpvote | src/components/FeedListClient.tsx:83-85 | the rows become `IncrementVotes` of the old rows |
| Feed.FeedList.FinishUpvote | src/components/FeedListClient.tsx:86-92 | success changes nothing and raises no alert; an error rolls the rows back and picks the alert by code |
| Feed.FeedList.Upvote | src/components/FeedListClient.tsx:83-93 | the whole upvote: the increment kept on success, increment then rollback on error, alert 23505 vs any other code |
| Feed.FeedList.CurrentUrl | src/components/FeedListClient.tsx:95 | the open row's URL, null exactly when no row is open |
| SubmitPage.AllowedUrlExactly | src/app/submit/page.tsx:11-26 | accepted exactly when the URL parses, uses https and names one of six hosts; lookalike hosts and http are refused |
| SubmitPage.EmbeddableIsAllowed | src/app/submit/page.tsx:11-22 | every https clip the classifier recognises is accepted, except the www.youtu.be and www.clips.twitch.tv forms |
| SubmitPage.AllowedButNotEmbeddable | src/app/submit/page.tsx:11-22 | a twitch.tv channel page is accepted, yet it is not a clip |
| SubmitPage.Validate | src/app/submit/page.tsx:42-58 | the URL check comes first; blank title or game is refused next; an accepted form yields the trimmed URL, title and game, without the author |
| SubmitPage.ValidateIgnoresPadding | src/app/submit/page.tsx:42-45 | surrounding whitespace never changes the verdict or the row sent |
| SubmitPage.SubmitForm.constructor | src/app/submit/page.tsx:29-36 | empty fields, not loading, no message |
| SubmitPage.SubmitForm.Edit | src/app/submit/page.tsx:96-114 | typing sets the four inputs and nothing else |
| SubmitPage.SubmitForm.BeginSubmit | src/app/submit/page.tsx:38-60 | clears the message; a rejected form shows its error, sends nothing and leaves `loading` alone; an accepted one sets `loading` and sends the validated row |
| SubmitPage.SubmitForm.FinishSubmit | src/app/submit/page.tsx:72-83 | success shows the confirmation and empties all four inputs; an error shows "Errore salvataggio: " and the message and keeps them; `loading` ends false either way |
| SubmitPage.SubmitForm.Submit | src/app/submit/page.tsx:38-84 | the whole `onSubmit`: rejection keeps every field; an insert is sent only for an accepted form, and `loading` is false when it returns |
| SubmitPage.IsAllowedUrl | src/app/submit/page.tsx:11-26 | the allow-list itself; specified by `SubmitPage.AllowedUrlExactly` |
| SubmitPage.RejectionText | src/app/submit/page.tsx:48-56 | the message shown for an invalid URL and for a blank title or game |
| Feed.IsNew | src/components/FeedListClient.tsx:40-42 | the NEW badge below 7,200,000 ms; characterized by `Feed.IsNewByAge` |
| Feed.IsHot | src/components/FeedListClient.tsx:118 | the HOT badge from 25 votes, null counting as 0; see `Feed.HotAfterIncrement` |
| Feed.AlertText | src/components/FeedListClient.tsx:90-91 | the two alert messages, chosen by `Feed.AlertFor` |
| Leaderboard.IsTop10 | src/components/LeaderboardClient.tsx:115 | the top-ten class for rows 0-9; see `Leaderboard.MedalsAreTop10` |
| Leaderboard.LeaderboardView.ShowPreview | src/components/LeaderboardClient.tsx:104 | a row shows its preview exactly when the device hovers and the row is the active one |
| Leaderboard.PreviewSrc | src/components/LeaderboardClient.tsx:34-44 | the two preview addresses as written; their shape and read-back are the `PreviewYouTube*` and `PreviewTwitch*` lemmas |
| PlayerModal.ParentHost | src/components/PlayerModal.tsx:33 | the window's host name, or "localhost" without a window |
| Strings.NonEmpty | src/lib/parseClip.ts:15 | `filter(Boolean)`: only non-empty pieces, each one from the input; pinned down on every list, in order, by `Strings.NonEmptyOne` and `Strings.NonEmptyAppend` |
| Strings.NonEmptyOne | src/lib/parseClip.ts:15 | one piece is kept exactly when it is non-empty |
| Strings.NonEmptyAppend | src/lib/parseClip.ts:15 | filtering a concatenation filters each part and keeps their order |
| Decimal.NatToString | src/components/LeaderboardClient.tsx:23-27 | non-empty decimal digits with no leading zero; read back by `Decimal.IntToStringRoundTrip` |
| Decimal.IntToString | src/components/LeaderboardClient.tsx:23-27 | a '-' before the digits of a negative number; read back by `Decimal.IntToStringRoundTrip` |
| Leaderboard.CraftedVideoIdUnmutesPreview | src/components/LeaderboardClient.tsx:35-37 | `watch?v=x%3Fmute%3D0%26` passes the allow-list, classifies as the id "x?mute=0&", and its preview's `mute` reads "0" |
| Leaderboard.InjectedPairLeadsYouTubePreview | src/components/LeaderboardClient.tsx:37 | any id ending in "?name=value&" makes that pair the first of its name in the YouTube preview's query |
| Leaderboard.CraftedSlugUnmutesPreview | src/components/LeaderboardClient.tsx:39-41 | clips.twitch.tv/abc&muted=false passes the allow-list, classifies as the slug "abc&muted=false", and its preview's `muted` reads "false" |
| Leaderboard.InjectedPairLeadsTwitchPreview | src/components/LeaderboardClient.tsx:41 | any slug going on with "&name=value" makes that pair the first of its name in the Twitch preview's query |
| Leaderboard.PreviewSrcEncoded | src/components/LeaderboardClient.tsx:34-44 | the preview with the id passed through `encodeURIComponent`: null exactly for an unknown clip |
| Leaderboard.BuildEmbedSrcEncoded | src/components/LeaderboardClient.tsx:34-44 | the corrected `buildEmbedSrc`: null exactly for a URL that is not a clip |
| Leaderboard.EncodedPreviewIsMuted | src/components/LeaderboardClient.tsx:34-44 | with the id encoded, every YouTube preview has `mute=1`, autoplay, inline, no controls, and every Twitch preview `muted=true` with the encoded slug and host, for every id |

## Left out

- Network I/O: the Supabase queries and inserts. An insert's answer is an input, and an insert that throws is not modelled; ordering and vote uniqueness live in the database.
- URL parsing and `encodeURIComponent` are parameters, and `new URL` hands over `searchParams` already percent-decoded. `new URL` is trusted to yield a consistent record, and the origin of `blob:` URLs is not modelled.
- The regular expressions are written out as functions: the `www.` strip and the Shorts match.
- Dates: `Date.now()` and `new Date(...)` are replaced by one integer of elapsed milliseconds, so an unparsable date, which gives NaN and the label "NaNd", is not modelled. `ymd` formats with the local time zone (`getMonth`, `getDate`) and is left out, and with it the feed's meta line. `toISOString` writes UTC text and only formats the two cut-offs for the database query, which is left out with the rest of the network I/O.
- Timers: the 120 ms hover timeout is a pending row id, and its firing is the explicit step `TimerFires`. The unmount cleanup that clears it has no counterpart.
- Feed.FeedList.Upvote: runs its two halves back to back. Another update of the list while the insert is pending (a second vote, a re-render with new rows) is not modelled; `BeginUpvote` and `FinishUpvote` can be called separately for that.
- The device fingerprint is sent with a vote but plays no part in the list update, so it is left out.
- Rendering: JSX, CSS, the body scroll lock, `window.matchMedia` (an input, `canHover`), `alert` (the chosen `Alert` is returned instead), the vote chip, and the preview iframe's attributes.
- PlayerModal.YouTubePlayerQuery: holds only for ids without '?' and '#'. The source splices the id in unencoded, so a `v` value holding such characters would change the address's query.
- PlayerModal.TwitchPlayerQuery: holds only when the slug and the encoded host contain no '&' or '#', for the same reason.
- Leaderboard.PreviewYouTubeQuery: holds only for ids without '?' and '#', for the same reason.
- Leaderboard.PreviewTwitchQuery: holds only when the slug and the encoded host contain no '&' or '#', for the same reason.
- Urls.Params: reads the query of an address the application writes as raw text, without percent-decoding or '+' to space; the read-back lemmas compare raw query text.
- Leaderboard.PreviewMutedPlayerNot: holds only for ids without '?' and '#', for the same reason as `PlayerModal.YouTubePlayerQuery`; `Leaderboard.CraftedVideoIdUnmutesPreview` shows an id that breaks it.
- Context files with no logic of their own are not part of this model: `src/lib/device.ts`, the game filter, the layout, the leaderboard route and the alert-only form under `src/app/src`.

## Findings

| source | as written | input that shows it | evidently intended | confidence | as-written member | corrected member |
|---|---|---|---|---|---|---|
| src/components/LeaderboardClient.tsx:37 | the YouTube id is spliced into the silent preview's address unencoded | `https://www.youtube.com/watch?v=x%3Fmute%3D0%26`: the decoded id "x?mute=0&" puts `mute=0` first in the query | the id encoded, so the preview always has `mute=1` | not executed | Leaderboard.CraftedVideoIdUnmutesPreview | Leaderboard.EncodedPreviewIsMuted |
| src/components/LeaderboardClient.tsx:41 | the Twitch slug is spliced into the silent preview's address unencoded | `https://clips.twitch.tv/abc&muted=false`: the slug "abc&muted=false" puts `muted=false` first in the query | the slug encoded, so the preview always has `muted=true` | not executed | Leaderboard.CraftedSlugUnmutesPreview | Leaderboard.EncodedPreviewIsMuted |
