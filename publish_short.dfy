/** `publishShort(albumSlug)`: upload the rendered vertical short of an
    album, with the privacy its metadata names and no schedule. */
module PublishShort {

  import opened Common
  import opened Text
  import opened YouTube

  const SHORTS_URL := "https://www.youtube.com/shorts/"

  function MetadataPath(slug: string): string { "youtube-metadata/shorts/" + slug + ".json" }
  function VideoPath(slug: string): string { "out/" + slug + "-short.mp4" }

  /** The outcome of `authorize()` followed by `videos.insert`: the new
      video's id, or the message of the error either of them threw. */
  type Api = Result<string>

  /** What one call does: the insert request it sends and what it returns or
      throws. */
  datatype Run = Run(inserted: Option<InsertRequest>, result: Outcome)

  /** The insert request for a short: the metadata's own privacy, never a
      `publishAt`, whatever the publish date. */
  function Request(slug: string, meta: Metadata): (req: InsertRequest)
    ensures req.title == meta.title && req.description == meta.description
    ensures req.tags == meta.tags && req.categoryId == meta.categoryId
    ensures req.privacyStatus == meta.privacyStatus && req.publishAt.None?
    ensures !req.madeForKids && req.mediaPath == VideoPath(slug)
  {
    InsertFor(meta, meta.privacyStatus, None, VideoPath(slug))
  }

  function PublishShort(slug: string, disk: Disk, api: Api): (run: Run)
    ensures MetadataPath(slug) !in disk.documents ==>
              run == Run(None, Err("Metadata not found: " + MetadataPath(slug)))
    ensures MetadataPath(slug) in disk.documents && VideoPath(slug) !in disk.media ==>
              run == Run(None, Err("Video not found: " + VideoPath(slug)))
    ensures run.inserted.Some? <==> MetadataPath(slug) in disk.documents && VideoPath(slug) in disk.media
    ensures run.inserted.Some? ==> run.inserted.value == Request(slug, disk.documents[MetadataPath(slug)])
    ensures run.result.Ok? <==> run.inserted.Some? && api.Ok?
    ensures run.result.Ok? ==>
              run.result.value == Published(api.value, SHORTS_URL + api.value,
                                            disk.documents[MetadataPath(slug)].title)
    ensures run.inserted.Some? && api.Err? ==> run.result == Err(api.error)
  {
    var metadataPath, videoPath := MetadataPath(slug), VideoPath(slug);
    if metadataPath !in disk.documents then Run(None, Err("Metadata not found: " + metadataPath))
    else if videoPath !in disk.media then Run(None, Err("Video not found: " + videoPath))
    else
      var meta := disk.documents[metadataPath];
      match api
      case Err(e) => Run(Some(Request(slug, meta)), Err(e))
      case Ok(videoId) => Run(Some(Request(slug, meta)), Ok(Published(videoId, SHORTS_URL + videoId, meta.title)))
  }

  /** The publish date plays no part: two metadata documents that differ
      only in their date give the same run. */
  lemma DateIrrelevant(slug: string, disk: Disk, date: Stamp, api: Api)
    requires MetadataPath(slug) in disk.documents
    ensures var meta := disk.documents[MetadataPath(slug)];
            var disk' := disk.(documents := disk.documents[MetadataPath(slug) := meta.(publishDate := date)]);
            PublishShort(slug, disk', api) == PublishShort(slug, disk, api)
  {
  }

  /** The video id a shorts URL points at. */
  function ShortsUrlVideoId(url: string): Option<string>
  {
    if StartsWith(url, SHORTS_URL) then Some(url[|SHORTS_URL|..]) else None
  }

  /** The returned URL points at the returned video id. */
  lemma ShortsUrlRoundTrip(slug: string, disk: Disk, api: Api)
    requires PublishShort(slug, disk, api).result.Ok?
    ensures var p := PublishShort(slug, disk, api).result.value;
            ShortsUrlVideoId(p.url) == Some(p.videoId)
  {
    var p := PublishShort(slug, disk, api).result.value;
    assert p.url[..|SHORTS_URL|] == SHORTS_URL;
    assert p.url[|SHORTS_URL|..] == p.videoId;
  }

  /** The exit status of `tsx scripts/publish-short.ts <slug>`: 1 when the
      slug is missing or empty (usage) or the publish throws, 0 otherwise. */
  function Cli(argv: seq<string>, disk: Disk, api: Api): (code: int)
    ensures code == 0 || code == 1
    ensures (|argv| < 3 || argv[2] == "") ==> code == 1
    ensures |argv| >= 3 && argv[2] != "" ==>
              (code == 0 <==> PublishShort(argv[2], disk, api).result.Ok?)
  {
    if |argv| < 3 || argv[2] == "" then 1
    else if PublishShort(argv[2], disk, api).result.Ok? then 0
    else 1
  }
}
