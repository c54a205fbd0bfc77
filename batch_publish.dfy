/** `batchPublish(mode)`: publish the full-length videos of every album
    with metadata, in week order, or only the first of them in test mode. */
module BatchPublish {

  import opened Common
  import opened Text
  import opened Batch
  import PublishVideo

  const METADATA_DIR := "youtube-metadata/"

  /** The album that is never batch-published. */
  const EXCLUDED := "cognitive-bloom"

  const REPORT_PATH := "published-videos.json"

  /** The album list: every `.json` file of the metadata directory, read,
      without the excluded album, sorted by week. */
  function Albums(entries: seq<string>, disk: Disk): seq<AlbumInfo>
    requires Readable(METADATA_DIR, JsonFiles(entries), disk)
  {
    SortByWeek(Without(Infos(METADATA_DIR, JsonFiles(entries), disk), EXCLUDED))
  }

  /** The album list never holds the excluded album. */
  lemma AlbumsExclude(entries: seq<string>, disk: Disk)
    requires Readable(METADATA_DIR, JsonFiles(entries), disk)
    ensures forall a :: a in Albums(entries, disk) ==> a.slug != EXCLUDED
  {
    var kept := Without(Infos(METADATA_DIR, JsonFiles(entries), disk), EXCLUDED);
    SortByWeekCorrect(kept);
    forall a | a in Albums(entries, disk) ensures a.slug != EXCLUDED {
      assert a in multiset(kept);
    }
  }

  /** The album list is sorted by week, never holds the excluded album, and
      holds exactly the other albums read from the `.json` files of the
      directory, each as often as it was read; albums of the same week keep
      their directory order. */
  lemma AlbumsListed(entries: seq<string>, disk: Disk)
    requires Readable(METADATA_DIR, JsonFiles(entries), disk)
    ensures SortedByWeek(Albums(entries, disk))
    ensures multiset(Albums(entries, disk))
            == multiset(Without(Infos(METADATA_DIR, JsonFiles(entries), disk), EXCLUDED))
    ensures forall w :: OfWeek(Albums(entries, disk), w)
                        == OfWeek(Without(Infos(METADATA_DIR, JsonFiles(entries), disk), EXCLUDED), w)
    ensures forall a :: a in Albums(entries, disk) ==> a.slug != EXCLUDED
    ensures forall f :: (f in entries && EndsWith(f, ".json")
                         && disk.documents[METADATA_DIR + f].slug != EXCLUDED) ==>
              InfoOf(disk.documents[METADATA_DIR + f]) in Albums(entries, disk)
  {
    var files := JsonFiles(entries);
    var infos := Infos(METADATA_DIR, files, disk);
    var kept := Without(infos, EXCLUDED);
    SortByWeekCorrect(kept);
    AlbumsExclude(entries, disk);
    forall f | f in entries && EndsWith(f, ".json") && disk.documents[METADATA_DIR + f].slug != EXCLUDED
      ensures InfoOf(disk.documents[METADATA_DIR + f]) in Albums(entries, disk)
    {
      var i :| 0 <= i < |files| && files[i] == f;
      assert infos[i] == InfoOf(disk.documents[METADATA_DIR + f]);
      assert infos[i] in kept;
      assert infos[i] in multiset(Albums(entries, disk));
    }
  }

  /** What `publishVideo` does for each album, in list order. */
  function Outcomes(albums: seq<AlbumInfo>, disk: Disk, now: int, apis: seq<PublishVideo.Api>): seq<Outcome>
    requires |apis| == |albums|
  {
    seq(|albums|, i requires 0 <= i < |albums| => PublishVideo.PublishVideo(albums[i].slug, disk, now, apis[i]).result)
  }

  /** Test mode on the sorted list: publish the first album only and
      return its result untagged; a failure propagates. */
  method PublishFirst(albums: seq<AlbumInfo>, disk: Disk, now: int, apis: seq<PublishVideo.Api>)
    returns (result: Result<seq<Report>>, attempted: seq<string>)
    requires |apis| == |albums|
    ensures albums == [] ==> result == Err(NO_FIRST_ENTRY) && attempted == []
    ensures albums != [] ==>
              var first := PublishVideo.PublishVideo(albums[0].slug, disk, now, apis[0]).result;
              && attempted == [albums[0].slug]
              && (first.Ok? ==> result == Ok([Report(first.value, None)]))
              && (first.Err? ==> result == Err(first.error))
  {
    if |albums| == 0 {
      return Err(NO_FIRST_ENTRY), [];
    }
    var album := albums[0];
    var run := PublishVideo.PublishVideo(album.slug, disk, now, apis[0]);
    attempted := [album.slug];
    match run.result
    case Err(e) => result := Err(e);
    case Ok(published) => result := Ok([Report(published, None)]);
  }

  /** All mode on the sorted list: attempt every album in order, keep the
      successes tagged with their week, and carry on past a failure. */
  method PublishEach(albums: seq<AlbumInfo>, disk: Disk, now: int, apis: seq<PublishVideo.Api>)
    returns (results: seq<Report>, attempted: seq<string>)
    requires |apis| == |albums|
    ensures attempted == Slugs(albums)
    ensures results == Reports(albums, Outcomes(albums, disk, now, apis))
  {
    results, attempted := [], [];
    ghost var outcomes := Outcomes(albums, disk, now, apis);
    for i := 0 to |albums|
      invariant results == Reports(albums[..i], outcomes[..i])
      invariant attempted == Slugs(albums[..i])
    {
      ReportsSnoc(albums[..i], outcomes[..i], albums[i], outcomes[i]);
      SlugsStep(albums, i);
      assert outcomes[..i + 1] == outcomes[..i] + [outcomes[i]];
      var run := PublishVideo.PublishVideo(albums[i].slug, disk, now, apis[i]);
      assert run.result == outcomes[i];
      attempted := attempted + [albums[i].slug];
      if run.result.Ok? {
        results := results + [Report(run.result.value, Some(albums[i].week))];
      }
    }
    assert albums[..|albums|] == albums && outcomes[..|outcomes|] == outcomes;
  }

  /** `batchPublish(mode)` over the directory listing `entries`, with the
      outcome of the API calls for each album in sorted order. Returns what
      it resolves to or throws, the slugs passed to `publishVideo`, and the
      report file written. */
  method BatchPublish(mode: Mode, entries: seq<string>, disk: Disk, now: int, apis: seq<PublishVideo.Api>)
    returns (result: Result<seq<Report>>, attempted: seq<string>, reportFile: Option<seq<Report>>)
    requires Readable(METADATA_DIR, JsonFiles(entries), disk)
    requires |apis| == |Albums(entries, disk)|
    // the excluded album is never published
    ensures EXCLUDED !in attempted
    // test mode: one attempt on the lowest-week album, its failure propagates, no report
    ensures var albums := Albums(entries, disk);
            mode == Test ==>
              && reportFile == None
              && (albums == [] ==> result == Err(NO_FIRST_ENTRY) && attempted == [])
              && (albums != [] ==>
                    var first := PublishVideo.PublishVideo(albums[0].slug, disk, now, apis[0]).result;
                    && attempted == [albums[0].slug]
                    && (first.Ok? ==> result == Ok([Report(first.value, None)]))
                    && (first.Err? ==> result == Err(first.error)))
    // all mode: every album attempted in order; the report is exactly the successes
    ensures var albums := Albums(entries, disk);
            mode == All ==>
              && attempted == Slugs(albums)
              && result == Ok(Reports(albums, Outcomes(albums, disk, now, apis)))
              && reportFile == Some(result.value)
  {
    AlbumsExclude(entries, disk);
    var albums := SortByWeek(Without(Infos(METADATA_DIR, JsonFiles(entries), disk), EXCLUDED));
    if mode == Test {
      result, attempted := PublishFirst(albums, disk, now, apis);
      reportFile := None;
      if albums != [] {
        assert albums[0] in albums;
      }
    } else {
      var results;
      results, attempted := PublishEach(albums, disk, now, apis);
      assert forall k :: 0 <= k < |albums| ==> attempted[k] == albums[k].slug && albums[k] in albums;
      result, reportFile := Ok(results), Some(results);
    }
  }

  /** `tsx scripts/batch-publish.ts [--all]`: all mode only with `--all`;
      exit 1 exactly when `batchPublish` rejects, which only test mode
      can. */
  method Cli(argv: seq<string>, entries: seq<string>, disk: Disk, now: int, apis: seq<PublishVideo.Api>)
    returns (code: int)
    requires Readable(METADATA_DIR, JsonFiles(entries), disk)
    requires |apis| == |Albums(entries, disk)|
    ensures ModeOf(argv) == All ==> code == 0
    ensures var albums := Albums(entries, disk);
            ModeOf(argv) == Test ==>
              (code == 1 <==> albums == [] || PublishVideo.PublishVideo(albums[0].slug, disk, now, apis[0]).result.Err?)
  {
    var result, _, _ := BatchPublish(ModeOf(argv), entries, disk, now, apis);
    code := ExitCode(result);
  }
}
