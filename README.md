# Publishing pipeline of the Pravos video generator

This project models the publishing pipeline of a repository that renders
promotional videos for music albums and uploads them to YouTube. It covers
five parts of that pipeline:

- **Schedule queries.** The publishing schedule is a table of weekly rows.
  Each row pairs a full-length video with a short, and each has its own date
  and `published` flag. Two queries read the table: `getItemsDueToday` and
  `getNextScheduledItem`.
- **The auto-publisher, `autoPublish`.** It loads the tracking store and
  publishes every item due today, in order. A failure affects only its own
  item. On success it appends a tracking record and sets the row's flag.
  It sends one notification per item, then saves the store.
- **The two manual batch drivers, `batchPublish` and `batchPublishShorts`.**
  Each reads its metadata directory and sorts the albums by week; the video
  driver first excludes the `cognitive-bloom` album. In test mode a driver
  publishes only the first album. In all mode it publishes every album and
  reports the successes.
- **The publish and reschedule decisions.** This covers `publishVideo`,
  `publishShort`, `rescheduleVideo` and `rescheduleAll`: the order of the
  missing-file checks, privacy and `publishAt` chosen from the publish date
  against now, the thumbnail condition, and the returned URL.
- **The slug-to-asset naming of the three render scripts.** This covers the
  `--album=` argument, the audio and art file names, the title-cased album
  name, and the output paths. Those output paths are the files the publish
  scripts read.

Time is an integer instant in milliseconds. `Common.Stamp` keeps a date's
ISO text next to the instant it denotes; the scripts compare instants and
copy the text. Every external call is a parameter holding its outcome:
the YouTube API, authorisation, the file system and the clock. The file
system is `Common.Disk`: the metadata documents by path, already parsed,
plus the set of rendered media files that exist.

Modules follow the scripts:

| module | models |
|---|---|
| `Common` | shared values: results, dates, metadata, the file system |
| `Text` | the JavaScript string operations the render scripts use |
| `AssetNaming` | the slug, file-name and album-name derivation shared by the render scripts |
| `RenderVideo`, `RenderShort`, `RenderThumbnail` | `render.mjs`, `render-short.mjs`, `render-thumbnail.mjs` |
| `YouTube` | the insert and update requests |
| `PublishVideo`, `PublishShort` | `scripts/publish-video.ts`, `scripts/publish-short.ts` |
| `Reschedule` | `scripts/reschedule-videos.ts` |
| `Schedule` | `scripts/publishing-schedule.ts` |
| `AutoPublish` | `scripts/auto-publish.ts`; `Publisher` is the coordinator's mutable world |
| `Batch` | what the two batch drivers share: listing, stable sort by week, modes, report |
| `BatchPublish`, `BatchPublishShorts` | `scripts/batch-publish.ts`, `scripts/batch-publish-shorts.ts` |

The schedule table is an `array` whose rows `autoPublish` updates in place.
The two queries are loops over it, each proved equal to a recursive
specification (`DueItems`, `NextItem`). The auto-publisher's loop is
likewise proved equal to a fold of one step over the due items
(`AutoPublish.Run`). The properties of the run are then lemmas about that
fold: results, tracking, flags and notifications.

## Model

| member | source | states |
|---|---|---|
| Text.ReplaceAll | render.mjs:25-26 | `replace(/-/g, c)`: same length; each character is replaced exactly when it is the given one |
| Text.RemoveAll | render.mjs:19 | `replace(/['"]/g, '')`: no dropped character remains, the result is no longer, and a string without dropped characters is unchanged |
| Text.RemoveAllConcat | render.mjs:19 | removal works piecewise: the removal over a concatenation is the concatenation of the removals, so kept characters stay in order |
| Text.RemoveAllSingle | render.mjs:19 | a single character is dropped exactly when it is a quote, and kept otherwise |
| Text.RemoveAllIdempotent | render.mjs:19 | stripping quotes twice strips nothing more |
| Text.IndexOf | render.mjs:19 | the first occurrence of a character, or none exactly when it does not occur |
| Text.Split | render.mjs:19 | `split(c)` gives one more piece than there are occurrences of `c`, and no piece contains `c` |
| Text.JoinSplit | render.mjs:27-30 | joining the pieces of a split with the separator gives back the string |
| Text.SplitJoin | render.mjs:27-30 | splitting a join on a separator that no word contains gives back the words |
| Text.JoinLength | render.mjs:27-30 | a join's length is the total length of the words plus one separator between each pair |
| Text.ToUpper | render.mjs:29 | upper-cases exactly the ASCII lower-case letters, keeping their alphabet position |
| Text.Capitalize | render.mjs:29 | `charAt(0).toUpperCase() + slice(1)`: same length, first letter upper-cased, the rest unchanged |
| AssetNaming.FindAlbumArg | render.mjs:12 | `args.find(...)`: none exactly when no argument starts with `--album=`; otherwise the first such argument |
| AssetNaming.FlagValue | render.mjs:19 | the text after `--album=`, up to the next `=` or the end; it contains no `=` |
| AssetNaming.SplitOnFlag | render.mjs:19 | the second `=`-field of a flagged argument exists and is `FlagValue` |
| AssetNaming.SlugIsUnquotedFlagValue | render.mjs:19 | the slug is that field with quotes removed; it holds no quote and no `=` |
| AssetNaming.AudioFileName | render.mjs:25 | each `-` becomes a space, then `-full-album.mp3`; the prefix has the slug's length and no `-` |
| AssetNaming.ArtFileName | render.mjs:26 | each `-` becomes `_`, then `.webp`; the prefix has the slug's length and no `-` |
| AssetNaming.CapitalizeAll | render.mjs:29 | capitalises every word and keeps the count |
| AssetNaming.AlbumNameIsTitleCase | render.mjs:27-30 | the split-capitalise-join album name equals the character-wise title case, so it is as long as the slug |
| AssetNaming.AlbumNameWords | render.mjs:27-30 | for a slug without spaces, the album name splits on spaces into the capitalised pieces, one word per piece |
| AssetNaming.AlbumSlug | render.mjs:11-19 | no slug exactly when no argument after the script name carries the flag; otherwise the flag's value with quotes removed |
| RenderVideo.Render | render.mjs:11-75 | usage error exactly without `--album=`; otherwise `BreathingBloom`, `h264`, the same props for select and render (derived names and `/albums/`, `/assets/albums/` sources), output `PublishVideo.VideoPath` |
| RenderShort.Render | render-short.mjs:10-68 | usage error exactly without `--album=`; otherwise `BreathingBloomShort`, the same props for select and render, output `PublishShort.VideoPath` |
| RenderShort.SameAssetsAsVideo | render-short.mjs:18-31 | on any command line, the short renders exactly when the video does, with the same props, another composition and another file |
| RenderThumbnail.Render | render-thumbnail.mjs:10-59 | usage error exactly without `--album=`; otherwise `Thumbnail` with `{albumName, albumArtSrc, '25 MIN'}` for both calls, output `PublishVideo.ThumbnailPath` |
| RenderThumbnail.MatchesVideo | render-thumbnail.mjs:18-27 | the thumbnail renders exactly when the video does, with the video's album name and art source |
| PublishVideo.ScheduleIsNotPast | scripts/publish-video.ts:36-53 | a video is scheduled exactly when its date is not in the past |
| PublishVideo.Request | scripts/publish-video.ts:62-80 | snippet copied from metadata, not for kids; private with `publishAt` = the date when the date is ahead, else the metadata's privacy and no `publishAt` |
| PublishVideo.PublishVideo | scripts/publish-video.ts:21-107 | metadata checked before the video, each error named and before any upload; insert exactly when both exist; thumbnail exactly when inserted and the file exists; success exactly when insert and any thumbnail upload succeed; a failed insert or thumbnail upload propagates its own error; returns id, watch URL and title |
| PublishVideo.WatchUrlRoundTrip | scripts/publish-video.ts:102-106 | the returned URL is a watch URL for the returned id |
| PublishVideo.Cli | scripts/publish-video.ts:109-127 | exit 1 without a slug; otherwise exit 0 exactly when the publish succeeds |
| PublishShort.Request | scripts/publish-short.ts:46-63 | snippet copied from metadata, the metadata's privacy, never a `publishAt`, the `-short.mp4` file |
| PublishShort.PublishShort | scripts/publish-short.ts:21-79 | metadata under `shorts/` checked before the video, each error before any upload; success exactly when both exist and the insert succeeds; returns id, shorts URL and title |
| PublishShort.DateIrrelevant | scripts/publish-short.ts:46-63 | changing the metadata's publish date changes nothing |
| PublishShort.ShortsUrlRoundTrip | scripts/publish-short.ts:74-78 | the returned URL is a shorts URL for the returned id |
| PublishShort.Cli | scripts/publish-short.ts:81-99 | exit 1 without a slug; otherwise exit 0 exactly when the publish succeeds |
| Reschedule.RescheduleVideo | scripts/reschedule-videos.ts:24-64 | date passed: a public update and status `public` with no `publishAt`; date ahead: a private update with `publishAt` and status `scheduled`; a failed update propagates |
| Reschedule.MetadataPathsAgree | scripts/reschedule-videos.ts:83-90 | the metadata looked up is the file the matching publish script reads (`shorts/` for shorts) |
| Reschedule.MissingMetadataSkipped | scripts/reschedule-videos.ts:92-95 | a video without metadata gets no update and no report entry |
| Reschedule.ReportConcat | scripts/reschedule-videos.ts:82-131 | the report of a concatenated list is the concatenation, so entries follow list order |
| Reschedule.RequestsConcat | scripts/reschedule-videos.ts:82-131 | the requests of a concatenated list are the concatenation, so updates are sent in list order |
| Reschedule.RescheduleStep | scripts/reschedule-videos.ts:82-131 | one more listed video adds its report entry and its update request, if any, at the end |
| Reschedule.ReportEntries | scripts/reschedule-videos.ts:104-130 | one entry per video with metadata whose update succeeded, each carrying that video's id, slug, type and title; status `scheduled` exactly when `publishAt` is set |
| Reschedule.RescheduleAll | scripts/reschedule-videos.ts:66-153 | authorisation failure rejects before any update; otherwise the requests sent and the results are the per-video specification in list order, and the report file is exactly the results |
| Schedule.DueItemsConcat | scripts/publishing-schedule.ts:123-134 | earlier rows' due entries come before later rows' |
| Schedule.DueItemsComplete | scripts/publishing-schedule.ts:127-133 | every unpublished item dated in `[todayStart, todayEnd)` is listed |
| Schedule.DueItemsSound | scripts/publishing-schedule.ts:127-133 | every listed entry is such an item of some row, with that row's slug and date |
| Schedule.DueItemsBound | scripts/publishing-schedule.ts:115-137 | at most two entries per row |
| Schedule.DueWindowBoundaries | scripts/publishing-schedule.ts:117-131 | an unpublished item at `todayStart` is listed; one at `todayEnd` is not due |
| Schedule.DueItemsNoneAfter | scripts/publishing-schedule.ts:127-133 | rows dated at or after the window's end contribute nothing |
| Schedule.GetItemsDueToday | scripts/publishing-schedule.ts:115-137 | the loop, which only reads the table, computes `DueItems`: table order, a row's video before its short |
| Schedule.NextItemIsFirstUpcoming | scripts/publishing-schedule.ts:99-112 | a next item is unpublished and strictly in the future, and nothing earlier (rows before it, or its row's video before a short) is |
| Schedule.NextItemNone | scripts/publishing-schedule.ts:96-113 | null exactly when no unpublished item lies strictly in the future |
| Schedule.GetNextScheduledItem | scripts/publishing-schedule.ts:96-113 | the early-returning loop, which only reads the table, computes `NextItem` |
| Schedule.ScheduleTableShape | scripts/publishing-schedule.ts:21-94 | nine rows, weeks 1 to 9 in order, each short a day after its video, `cognitive-bloom` in two rows |
| Schedule.ExampleJanuary19 | scripts/publishing-schedule.ts:21-137 | on 19 January 2026 (at -08:00) only week 2's video is due |
| Schedule.ExampleJanuary19Next | scripts/publishing-schedule.ts:21-113 | at 10:00 that day the next upcoming item is week 2's short |
| AutoPublish.LoadTracking | scripts/auto-publish.ts:35-47 | no file: empty lists stamped with the current time; otherwise the stored document |
| AutoPublish.FindRow | scripts/auto-publish.ts:143-146 | a row found is in the table and its slug for the item's type matches |
| AutoPublish.FindRowFirst | scripts/auto-publish.ts:143-146 | the row found is the first match; none is found exactly when no row matches |
| AutoPublish.SetFlag | scripts/auto-publish.ts:147-153 | only the flag for the type is set; week, slugs, dates and the other flag are kept |
| AutoPublish.MarkPublished | scripts/auto-publish.ts:143-153 | only the first matching row changes, by `SetFlag`; the length and all other rows are kept |
| AutoPublish.RunSnoc | scripts/auto-publish.ts:83-185 | running one more due item is one more step of the loop body |
| AutoPublish.RunStep | scripts/auto-publish.ts:83-185 | the run over one more due item is one more step |
| AutoPublish.RunAppendsResults | scripts/auto-publish.ts:120-126 | a run appends to the results list one entry per due item, in due order, and keeps what was there |
| AutoPublish.RunAppendsNotices | scripts/auto-publish.ts:129-183 | a run sends one notification per due item, in due order, after those already sent |
| AutoPublish.RunResultsList | scripts/auto-publish.ts:120-126 | one result entry per due item, in due order, from that item's outcome alone; earlier entries are kept |
| AutoPublish.RunNotices | scripts/auto-publish.ts:129-183 | one notification per due item, in due order, from that item's outcome alone; earlier ones are kept |
| AutoPublish.RunResults | scripts/auto-publish.ts:83-185 | one result entry and one notification per due item, in due order; each follows from that item's own outcome alone; earlier entries are kept |
| AutoPublish.ResultOfOutcome | scripts/auto-publish.ts:120-183 | an entry is `success` exactly when the publish succeeded; a failure carries only the message; the notification is `success` or `error` to match |
| AutoPublish.TrackRecords | scripts/auto-publish.ts:92-114 | one item appends its record only to its own type's list and leaves `lastCheck` alone |
| AutoPublish.RunTracking | scripts/auto-publish.ts:92-114 | each tracking list ends as its initial records followed by the new records of that type; nothing is removed or edited, and `lastCheck` is untouched |
| AutoPublish.NewRecordsCount | scripts/auto-publish.ts:92-114 | the new video and short records together number the successes |
| AutoPublish.NewRecordsPerKind | scripts/auto-publish.ts:92-114 | each type's list gains exactly as many records as there are successes of that type |
| AutoPublish.NewRecordsComplete | scripts/auto-publish.ts:92-114 | every successful item has its record in its own type's list |
| AutoPublish.NewRecordsSound | scripts/auto-publish.ts:92-114 | each new record of a type is `'published'`, not manual, dated the run's date, with the slug, title and id of a successful item of that type |
| AutoPublish.NewRecordsShape | scripts/auto-publish.ts:92-114 | the new records number the successes, and those of each type the successes of that type; every success has its record; each is `'published'`, not manual, dated the run's date, and has the slug, title and video id of one successful item of its type |
| AutoPublish.FindRowSameSlugs | scripts/auto-publish.ts:143-146 | the lookup reads only the slugs for the item's type |
| AutoPublish.FindRowEvolved | scripts/auto-publish.ts:143-146 | setting flags does not change which row a later lookup finds |
| AutoPublish.StepSchedule | scripts/auto-publish.ts:142-153 | one item only adds flags; a success flags its first matching row; only that flag can be newly set |
| AutoPublish.RunSchedule | scripts/auto-publish.ts:83-185 | over the run, rows keep their content and flags; each success flags its first matching row; every newly set flag comes from such a success |
| AutoPublish.Publisher.SaveTracking | scripts/auto-publish.ts:49-53 | the file becomes exactly the tracking stamped with the current time; nothing else changes |
| AutoPublish.Publisher.FindScheduleRow | scripts/auto-publish.ts:143-146 | the `find` over the shared table returns `FindRow` |
| AutoPublish.Publisher.PublishItem | scripts/auto-publish.ts:89-184 | one publish call and one notification; tracking, results and the table become one step of the loop body |
| AutoPublish.Publisher.PublishAll | scripts/auto-publish.ts:83-185 | the loop makes one publish call per due item in order, and leaves tracking, results, table and notifications as `Run` computes them |
| AutoPublish.Publisher.AutoPublish | scripts/auto-publish.ts:66-188 | nothing due: returns before any publish, notification or save; otherwise publishes every due item, then saves the run's tracking stamped with the clock |
| Batch.ModeOf | scripts/batch-publish.ts:99 | `all` exactly when `argv[2]` is `--all` |
| Batch.JsonFiles | scripts/batch-publish.ts:18 | exactly the listed names ending in `.json` |
| Batch.JsonFilesConcat | scripts/batch-publish.ts:18 | the filter works entry by entry, keeping directory order and duplicates |
| Batch.JsonFilesSingle | scripts/batch-publish.ts:18 | one entry is kept exactly when its name ends in `.json` |
| Batch.Infos | scripts/batch-publish.ts:20-29 | one album per file, in file order, read from that file |
| Batch.Without | scripts/batch-publish.ts:30 | exactly the albums whose slug differs |
| Batch.WithoutConcat | scripts/batch-publish.ts:30 | the filter works album by album, keeping order and duplicates |
| Batch.WithoutSingle | scripts/batch-publish.ts:30 | one album is kept exactly when its slug differs |
| Batch.SlugsStep | scripts/batch-publish.ts:59-65 | one more album attempted adds its slug at the end of the calls made |
| Batch.InsertByWeekPermutes | scripts/batch-publish.ts:31 | insertion adds exactly the one album |
| Batch.InsertByWeekBounded | scripts/batch-publish.ts:31 | insertion never brings in a week above a bound that the list and the album respect |
| Batch.InsertByWeekSorted | scripts/batch-publish.ts:31 | insertion keeps a list sorted by week |
| Batch.InsertByWeekStable | scripts/batch-publish.ts:31 | insertion goes after every album of the same week |
| Batch.SortByWeekCorrect | scripts/batch-publish.ts:31 | the sort is sorted by week, a permutation, and stable: each week's albums keep their order |
| Batch.ReportsSnoc | scripts/batch-publish.ts:59-74 | one more attempt adds its tagged result exactly when it succeeded |
| Batch.ReportsExactlySuccesses | scripts/batch-publish.ts:59-74 | one report entry per success; each is a successful publish tagged with its album's week, and every success has its entry |
| Batch.ExitCode | scripts/batch-publish.ts:101-108 | exit 1 exactly when the driver rejects |
| BatchPublish.AlbumsExclude | scripts/batch-publish.ts:30-31 | the sorted list never holds `cognitive-bloom` |
| BatchPublish.AlbumsListed | scripts/batch-publish.ts:17-31 | the list is sorted by week, never holds `cognitive-bloom`, is a permutation of the other albums read from the `.json` files, and keeps their directory order within each week |
| BatchPublish.PublishFirst | scripts/batch-publish.ts:33-42 | test mode: an empty list throws before any publish; otherwise exactly one publish, of the first album; a failure propagates; a success gives a one-element list |
| BatchPublish.PublishEach | scripts/batch-publish.ts:59-74 | all mode: every album attempted in order, and the results are `Reports` of the outcomes |
| BatchPublish.BatchPublish | scripts/batch-publish.ts:16-96 | `cognitive-bloom` is never attempted; test mode as `PublishFirst`, with no report; all mode attempts every listed album and the report file is exactly the results |
| BatchPublish.Cli | scripts/batch-publish.ts:98-108 | all mode exits 0; test mode exits 1 exactly when the list is empty or the first publish fails |
| BatchPublishShorts.ShortsListed | scripts/batch-publish-shorts.ts:17-30 | the list is sorted by week, is a permutation of every short read, with none excluded, and keeps directory order within each week |
| BatchPublishShorts.PublishFirst | scripts/batch-publish-shorts.ts:32-41 | test mode: exactly one publish, of the first short; a failure propagates; an empty list throws |
| BatchPublishShorts.PublishEach | scripts/batch-publish-shorts.ts:58-73 | all mode: every short attempted in order despite failures, and the results are `Reports` of the outcomes |
| BatchPublishShorts.BatchPublishShorts | scripts/batch-publish-shorts.ts:16-95 | test mode as `PublishFirst`, with no report; all mode attempts every short and the report file is exactly the results |
| BatchPublishShorts.Cli | scripts/batch-publish-shorts.ts:97-107 | all mode exits 0; test mode exits 1 exactly when the list is empty or the first publish fails |

## Left out

- I/O is given as parameters: file reads and writes, `readdirSync`, JSON parsing and `existsSync`. A directory listing is a sequence of names in the order the listing returns them. Metadata is a parsed document. Fields missing from a JSON document are not modelled.
- BatchPublish.BatchPublish: requires every listed `.json` file to be readable. The source throws while building the list when a file cannot be read; that error path is not modelled.
- BatchPublishShorts.BatchPublishShorts: requires every listed `.json` file to be readable, for the same reason.
- The `youtube.videos.insert`, `videos.update` and `thumbnails.set` calls, and `authorize()` in `scripts/youtube-auth.ts`, are outcome parameters: an id, or a failure message. In the publish scripts an authorisation failure is folded into the insert outcome. The OAuth flow itself is not part of this model.
- `scripts/send-notification.ts` (an HTTP e-mail call that swallows its own errors) is not part of this model. A notification is a log entry of type, subject and message that always succeeds. The `metadata` table of labels, including the local-time timestamp, is omitted.
- The 5-second delays between publishes and the 1-second delay between reschedules are timing only; they do not affect results.
- Console output, summaries and the next-steps text are not modelled.
- Clocks: `now`, `todayStart`, `todayEnd` and the ISO time of the run are parameters, and each is read once per run. The source calls `new Date()` again at each use: in `rescheduleVideo` for every video (scripts/reschedule-videos.ts:31), in `publishVideo` for every album a batch driver publishes (scripts/publish-video.ts:37), for each tracking record's date (scripts/auto-publish.ts:97, 108) and for `lastCheck` when the tracking file is saved (scripts/auto-publish.ts:51), with pauses and uploads in between. A run that crosses a time boundary, such as UTC midnight or a publish date, can therefore see different clocks in the source; the model does not capture that. Parsing a date string to an instant, and local midnight and DST in `setDate(+1)`, are not modelled. The record date is taken from the UTC ISO time, as the source does; whether it agrees with the local day window is not modelled.
- An unparsable `publishDate` becomes `Invalid Date` in the source, and then both `<=` and `>` against now are false (scripts/publish-video.ts:38, 53; scripts/reschedule-videos.ts:33). The model gives every publish date an integer instant, so this case is not modelled.
- PublishVideo.ScheduleIsNotPast: holds only for publish dates that parse; for an `Invalid Date` the source neither warns nor schedules.
- AutoPublish.NewRecordsSound: "dated the run's date" holds because the model reads the clock once; the source takes a fresh date for each record.
- Paths are relative to the repository root; the `__dirname` prefix is dropped.
- `toUpperCase` is modelled for ASCII letters only; Unicode case mapping is not.
- `rescheduleVideo` takes a `title` that it only logs, so the model omits it.
- The auto-publisher's command line only exits 1 on an I/O failure, so it is not modelled.
- Remotion's `bundle`, `selectComposition`, `renderMedia` and `renderStill` calls are not modelled. What is modelled is the job the scripts hand them.
- The animation components and declarative configuration under `src/` are not part of this model.
- Test mode of the batch drivers throws `TypeError` on an empty list; its message is modelled as the constant `Batch.NO_FIRST_ENTRY`.
- A notification that throws on the success path would send the item into the `catch` branch and record a failure as well. Notifications never throw in this model, so this case does not arise.
- The video batch driver's exclusion follows the code: the literal slug `cognitive-bloom`, not a configurable set. Likewise only successes go in the batch reports; failures are not recorded.
- Batch.SortByWeekCorrect: week values are integers, so comparisons that return `NaN` for a missing week are not modelled.
