/** `publishVideo(albumSlug)`: upload the rendered full-length video of an
    album, scheduled for its publish date when that date is still ahead, and
    its thumbnail when one has been rendered. */
module PublishVideo {

  import opened Common
  import opened Text
  import opened YouTube

  const WATCH_URL := "https://www.youtube.com/watch?v="

  function MetadataPath(slug: string): string { "youtube-metadata/" + slug + ".json" }
  function VideoPath(slug: string): string { "out/" + slug + "-video.mp4" }
  function ThumbnailPath(slug: string): string { "out/" + slug + "-thumbnail.png" }

  /** The outcomes of the API calls one run may make: `authorize()` followed
      by `videos.insert` (the new video's id, or the message of the error
      either of them threw), then `thumbnails.set`. */
  datatype Api = Api(insert: Result<string>, thumbnail: Result<()>)

  /** What one call does: the insert request it sends, the thumbnail file it
      uploads, and what it returns or throws. */
  datatype Run = Run(inserted: Option<InsertRequest>, thumbnail: Option<string>, result: Outcome)

  predicate IsPastDate(meta: Metadata, now: int) { meta.publishDate.instant <= now }

  predicate ShouldSchedule(meta: Metadata, now: int) { meta.publishDate.instant > now }

  /** The log warning and the scheduling decision are complementary: a video
      is scheduled exactly when its date is not in the past. */
  lemma ScheduleIsNotPast(meta: Metadata, now: int)
    ensures ShouldSchedule(meta, now) <==> !IsPastDate(meta, now)
  {
  }

  /** The insert request for a video: metadata snippet, the rendered file,
      and the privacy and `publishAt` chosen from the publish date. */
  function Request(slug: string, meta: Metadata, now: int): (req: InsertRequest)
    ensures req.title == meta.title && req.description == meta.description
    ensures req.tags == meta.tags && req.categoryId == meta.categoryId
    ensures !req.madeForKids && req.mediaPath == VideoPath(slug)
    ensures meta.publishDate.instant > now ==>
              req.privacyStatus == Private && req.publishAt == Some(meta.publishDate.text)
    ensures meta.publishDate.instant <= now ==>
              req.privacyStatus == meta.privacyStatus && req.publishAt == None
  {
    var schedule := ShouldSchedule(meta, now);
    InsertFor(meta,
              if schedule then Private else meta.privacyStatus,
              if schedule then Some(meta.publishDate.text) else None,
              VideoPath(slug))
  }

  function PublishVideo(slug: string, disk: Disk, now: int, api: Api): (run: Run)
    // the metadata is checked first, then the video; either error stops the run before any upload
    ensures MetadataPath(slug) !in disk.documents ==>
              run == Run(None, None, Err("Metadata not found: " + MetadataPath(slug)))
    ensures MetadataPath(slug) in disk.documents && VideoPath(slug) !in disk.media ==>
              run == Run(None, None, Err("Video not found: " + VideoPath(slug)))
    ensures run.inserted.Some? <==> MetadataPath(slug) in disk.documents && VideoPath(slug) in disk.media
    ensures run.inserted.Some? ==> run.inserted.value == Request(slug, disk.documents[MetadataPath(slug)], now)
    // a thumbnail is uploaded exactly when the video was inserted and the thumbnail file exists
    ensures run.thumbnail.Some? <==> run.inserted.Some? && api.insert.Ok? && ThumbnailPath(slug) in disk.media
    ensures run.thumbnail.Some? ==> run.thumbnail.value == ThumbnailPath(slug)
    // success: both files, an inserted id, and no failing thumbnail upload
    ensures run.result.Ok? <==>
              run.inserted.Some? && api.insert.Ok? && (ThumbnailPath(slug) in disk.media ==> api.thumbnail.Ok?)
    ensures run.result.Ok? ==>
              run.result.value == Published(api.insert.value, WATCH_URL + api.insert.value,
                                            disk.documents[MetadataPath(slug)].title)
    ensures run.inserted.Some? && api.insert.Err? ==> run.result == Err(api.insert.error)
    ensures run.thumbnail.Some? && api.thumbnail.Err? ==> run.result == Err(api.thumbnail.error)
  {
    var metadataPath, videoPath, thumbnailPath := MetadataPath(slug), VideoPath(slug), ThumbnailPath(slug);
    if metadataPath !in disk.documents then Run(None, None, Err("Metadata not found: " + metadataPath))
    else if videoPath !in disk.media then Run(None, None, Err("Video not found: " + videoPath))
    else
      var meta := disk.documents[metadataPath];
      var req := Request(slug, meta, now);
      match api.insert
      case Err(e) => Run(Some(req), None, Err(e))
      case Ok(videoId) =>
        var thumbnail := if thumbnailPath in disk.media then Some(thumbnailPath) else None;
        if thumbnail.Some? && api.thumbnail.Err? then Run(Some(req), thumbnail, Err(api.thumbnail.error))
        else Run(Some(req), thumbnail, Ok(Published(videoId, WATCH_URL + videoId, meta.title)))
  }

  /** The video id a watch URL points at. */
  function WatchUrlVideoId(url: string): Option<string>
  {
    if StartsWith(url, WATCH_URL) then Some(url[|WATCH_URL|..]) else None
  }

  /** The returned URL points at the returned video id. */
  lemma WatchUrlRoundTrip(slug: string, disk: Disk, now: int, api: Api)
    requires PublishVideo(slug, disk, now, api).result.Ok?
    ensures var p := PublishVideo(slug, disk, now, api).result.value;
            WatchUrlVideoId(p.url) == Some(p.videoId)
  {
    var p := PublishVideo(slug, disk, now, api).result.value;
    assert p.url[..|WATCH_URL|] == WATCH_URL;
    assert p.url[|WATCH_URL|..] == p.videoId;
  }

  /** The exit status of `tsx scripts/publish-video.ts <slug>`: 1 when the
      slug is missing or empty (usage) or the publish throws, 0 otherwise. */
  function Cli(argv: seq<string>, disk: Disk, now: int, api: Api): (code: int)
    ensures code == 0 || code == 1
    ensures (|argv| < 3 || argv[2] == "") ==> code == 1
    ensures |argv| >= 3 && argv[2] != "" ==>
              (code == 0 <==> PublishVideo(argv[2], disk, now, api).result.Ok?)
  {
    if |argv| < 3 || argv[2] == "" then 1
    else if PublishVideo(argv[2], disk, now, api).result.Ok? then 0
    else 1
  }
}
