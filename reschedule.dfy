/** `rescheduleVideo` and `rescheduleAll`: set already-uploaded videos to
    public when their publish date has passed, or to private with a
    scheduled `publishAt` when it is still ahead. */
module Reschedule {

  import opened Common
  import opened YouTube
  import PublishVideo
  import PublishShort

  datatype VideoToReschedule = VideoToReschedule(videoId: string, slug: string, kind: ContentType)

  /** The list `rescheduleAll` works through. */
  const VIDEOS_TO_RESCHEDULE: seq<VideoToReschedule> := [
    VideoToReschedule("D4rCed3XpmE", "scripted-light", Video),
    VideoToReschedule("ey6UphR2t2Q", "neural-drift", Video),
    VideoToReschedule("1AOBYCyPyh8", "deep-piano-focus", Short),
    VideoToReschedule("7WobJjgq-8A", "meditative-ambient", Short),
    VideoToReschedule("JdZbUSv0dfA", "neural-drift", Short)
  ]

  /** What `rescheduleVideo` returns. */
  datatype Rescheduled = Rescheduled(videoId: string, status: string, publishAt: Option<string>)

  /** One `rescheduleVideo` call: the update it sends, and what it returns
      or throws, given the outcome of `videos.update`. */
  datatype Update = Update(request: UpdateRequest, result: Result<Rescheduled>)

  function RescheduleVideo(videoId: string, publishDate: Stamp, now: int, api: Result<()>): (u: Update)
    // a date that has passed: made public at once, no publishAt
    ensures publishDate.instant <= now ==>
              u.request == UpdateRequest(videoId, Public, None, false)
              && (api.Ok? ==> u.result == Ok(Rescheduled(videoId, "public", None)))
    // a date ahead: private, scheduled for that date
    ensures publishDate.instant > now ==>
              u.request == UpdateRequest(videoId, Private, Some(publishDate.text), false)
              && (api.Ok? ==> u.result == Ok(Rescheduled(videoId, "scheduled", Some(publishDate.text))))
    ensures api.Err? ==> u.result == Err(api.error)
    ensures u.result.Ok? ==> (u.result.value.status == "public" <==> u.result.value.publishAt.None?)
  {
    if publishDate.instant <= now then
      var request := UpdateRequest(videoId, Public, None, false);
      match api
      case Err(e) => Update(request, Err(e))
      case Ok(_) => Update(request, Ok(Rescheduled(videoId, "public", None)))
    else
      var request := UpdateRequest(videoId, Private, Some(publishDate.text), false);
      match api
      case Err(e) => Update(request, Err(e))
      case Ok(_) => Update(request, Ok(Rescheduled(videoId, "scheduled", Some(publishDate.text))))
  }

  /** `youtube-metadata/shorts/<slug>.json` for a short,
      `youtube-metadata/<slug>.json` for a video. */
  function MetadataPathFor(kind: ContentType, slug: string): string
  {
    "youtube-metadata/" + (if kind == Short then "shorts/" else "") + slug + ".json"
  }

  /** The metadata looked up here is the one the publish scripts read. */
  lemma MetadataPathsAgree(slug: string)
    ensures MetadataPathFor(Video, slug) == PublishVideo.MetadataPath(slug)
    ensures MetadataPathFor(Short, slug) == PublishShort.MetadataPath(slug)
  {
  }

  /** One entry of the report `rescheduled-videos.json`. */
  datatype Entry = Entry(videoId: string, title: string, slug: string, kind: ContentType,
                         status: string, publishAt: Option<string>)

  /** The update `rescheduleAll` makes for one listed video: none when its
      metadata is missing. */
  function UpdateOf(video: VideoToReschedule, disk: Disk, now: int, api: Result<()>): Option<Update>
  {
    var path := MetadataPathFor(video.kind, video.slug);
    if path !in disk.documents then None
    else Some(RescheduleVideo(video.videoId, disk.documents[path].publishDate, now, api))
  }

  /** The report entry one listed video contributes: only a successful
      update gives one. */
  function EntryOf(video: VideoToReschedule, disk: Disk, now: int, api: Result<()>): seq<Entry>
  {
    match UpdateOf(video, disk, now, api)
    case None => []
    case Some(u) =>
      if u.result.Err? then []
      else
        var meta := disk.documents[MetadataPathFor(video.kind, video.slug)];
        [Entry(video.videoId, meta.title, video.slug, video.kind, u.result.value.status, u.result.value.publishAt)]
  }

  /** The requests the loop sends, in list order. */
  function Requests(videos: seq<VideoToReschedule>, disk: Disk, now: int, apis: seq<Result<()>>): seq<UpdateRequest>
    requires |apis| == |videos|
  {
    if videos == [] then []
    else
      (match UpdateOf(videos[0], disk, now, apis[0]) case None => [] case Some(u) => [u.request])
      + Requests(videos[1..], disk, now, apis[1..])
  }

  /** The results list, in list order. */
  function Report(videos: seq<VideoToReschedule>, disk: Disk, now: int, apis: seq<Result<()>>): seq<Entry>
    requires |apis| == |videos|
  {
    if videos == [] then []
    else EntryOf(videos[0], disk, now, apis[0]) + Report(videos[1..], disk, now, apis[1..])
  }

  predicate Updated(video: VideoToReschedule, disk: Disk, api: Result<()>)
  {
    MetadataPathFor(video.kind, video.slug) in disk.documents && api.Ok?
  }

  /** The number of listed videos that have metadata and whose update
      succeeded. */
  function CountUpdated(videos: seq<VideoToReschedule>, disk: Disk, apis: seq<Result<()>>): nat
    requires |apis| == |videos|
  {
    if videos == [] then 0
    else (if Updated(videos[0], disk, apis[0]) then 1 else 0) + CountUpdated(videos[1..], disk, apis[1..])
  }

  /** The report of a concatenated list is the concatenation: entries come
      in list order. */
  lemma {:induction false} ReportConcat(a: seq<VideoToReschedule>, b: seq<VideoToReschedule>,
                                        disk: Disk, now: int, pa: seq<Result<()>>, pb: seq<Result<()>>)
    requires |pa| == |a| && |pb| == |b|
    ensures Report(a + b, disk, now, pa + pb) == Report(a, disk, now, pa) + Report(b, disk, now, pb)
  {
    if a != [] {
      assert (a + b)[1..] == a[1..] + b;
      assert (pa + pb)[1..] == pa[1..] + pb;
      ReportConcat(a[1..], b, disk, now, pa[1..], pb);
    } else {
      assert a + b == b && pa + pb == pb;
    }
  }

  /** The requests of a concatenated list are the concatenation: updates
      are sent in list order. */
  lemma {:induction false} RequestsConcat(a: seq<VideoToReschedule>, b: seq<VideoToReschedule>,
                                          disk: Disk, now: int, pa: seq<Result<()>>, pb: seq<Result<()>>)
    requires |pa| == |a| && |pb| == |b|
    ensures Requests(a + b, disk, now, pa + pb) == Requests(a, disk, now, pa) + Requests(b, disk, now, pb)
  {
    if a != [] {
      assert (a + b)[1..] == a[1..] + b;
      assert (pa + pb)[1..] == pa[1..] + pb;
      RequestsConcat(a[1..], b, disk, now, pa[1..], pb);
    } else {
      assert a + b == b && pa + pb == pb;
    }
  }

  /** The loop's step: one more listed video adds its entry and its
      request, if any, at the end. */
  lemma RescheduleStep(videos: seq<VideoToReschedule>, disk: Disk, now: int, apis: seq<Result<()>>, i: nat)
    requires |apis| == |videos| && i < |videos|
    ensures Report(videos[..i + 1], disk, now, apis[..i + 1])
            == Report(videos[..i], disk, now, apis[..i]) + EntryOf(videos[i], disk, now, apis[i])
    ensures Requests(videos[..i + 1], disk, now, apis[..i + 1])
            == Requests(videos[..i], disk, now, apis[..i])
               + (match UpdateOf(videos[i], disk, now, apis[i]) case None => [] case Some(u) => [u.request])
  {
    assert videos[..i + 1] == videos[..i] + [videos[i]];
    assert apis[..i + 1] == apis[..i] + [apis[i]];
    ReportConcat(videos[..i], [videos[i]], disk, now, apis[..i], [apis[i]]);
    RequestsConcat(videos[..i], [videos[i]], disk, now, apis[..i], [apis[i]]);
  }

  /** One entry per successful update, each carrying its video's id, slug,
      type and the metadata title, and a status that is `'scheduled'`
      exactly when a `publishAt` is set. */
  lemma {:induction false} ReportEntries(videos: seq<VideoToReschedule>, disk: Disk, now: int, apis: seq<Result<()>>)
    requires |apis| == |videos|
    ensures |Report(videos, disk, now, apis)| == CountUpdated(videos, disk, apis)
    ensures forall e :: e in Report(videos, disk, now, apis) ==>
              (e.status == "public" && e.publishAt.None?) || (e.status == "scheduled" && e.publishAt.Some?)
    ensures forall e :: e in Report(videos, disk, now, apis) ==>
              exists i :: 0 <= i < |videos| && Updated(videos[i], disk, apis[i])
                && e.videoId == videos[i].videoId && e.slug == videos[i].slug && e.kind == videos[i].kind
                && e.title == disk.documents[MetadataPathFor(videos[i].kind, videos[i].slug)].title
  {
    if videos != [] {
      ReportEntries(videos[1..], disk, now, apis[1..]);
      var head := EntryOf(videos[0], disk, now, apis[0]);
      var tail := Report(videos[1..], disk, now, apis[1..]);
      forall e | e in tail
        ensures exists i :: (0 <= i < |videos| && Updated(videos[i], disk, apis[i])
                  && e.videoId == videos[i].videoId && e.slug == videos[i].slug && e.kind == videos[i].kind
                  && e.title == disk.documents[MetadataPathFor(videos[i].kind, videos[i].slug)].title)
      {
        var i :| 0 <= i < |videos[1..]| && Updated(videos[1..][i], disk, apis[1..][i])
                && e.videoId == videos[1..][i].videoId && e.slug == videos[1..][i].slug && e.kind == videos[1..][i].kind
                && e.title == disk.documents[MetadataPathFor(videos[1..][i].kind, videos[1..][i].slug)].title;
        assert videos[1..][i] == videos[i + 1] && apis[1..][i] == apis[i + 1];
      }
    }
  }

  /** A listed video without metadata is skipped: no request, no entry. */
  lemma MissingMetadataSkipped(video: VideoToReschedule, disk: Disk, now: int, api: Result<()>)
    requires MetadataPathFor(video.kind, video.slug) !in disk.documents
    ensures Requests([video], disk, now, [api]) == [] && Report([video], disk, now, [api]) == []
  {
  }

  /** `rescheduleAll` over `videos`: authorise, then one update per video
      that has metadata, a failing update logged and skipped. Returns what
      the function resolves to, the update requests sent, and the report
      file written (none when authorisation throws). */
  method RescheduleAll(videos: seq<VideoToReschedule>, disk: Disk, now: int,
                       auth: Result<()>, apis: seq<Result<()>>)
    returns (result: Result<seq<Entry>>, sent: seq<UpdateRequest>, reportFile: Option<seq<Entry>>)
    requires |apis| == |videos|
    ensures auth.Err? ==> result == Err(auth.error) && sent == [] && reportFile == None
    ensures auth.Ok? ==> result == Ok(Report(videos, disk, now, apis))
                         && sent == Requests(videos, disk, now, apis)
                         && reportFile == Some(result.value)
  {
    if auth.Err? {
      return Err(auth.error), [], None;
    }
    var results: seq<Entry> := [];
    sent := [];
    for i := 0 to |videos|
      invariant results == Report(videos[..i], disk, now, apis[..i])
      invariant sent == Requests(videos[..i], disk, now, apis[..i])
    {
      RescheduleStep(videos, disk, now, apis, i);
      var video := videos[i];
      var metadataPath := MetadataPathFor(video.kind, video.slug);
      if metadataPath !in disk.documents {
        continue;
      }
      var metadata := disk.documents[metadataPath];
      var u := RescheduleVideo(video.videoId, metadata.publishDate, now, apis[i]);
      sent := sent + [u.request];
      if u.result.Ok? {
        results := results + [Entry(video.videoId, metadata.title, video.slug, video.kind,
                                    u.result.value.status, u.result.value.publishAt)];
      }
    }
    assert videos[..|videos|] == videos && apis[..|apis|] == apis;
    result, reportFile := Ok(results), Some(results);
  }
}
