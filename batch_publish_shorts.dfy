/** `batchPublishShorts(mode)`: publish the short of every album with
    shorts metadata, in week order, or only the first of them in test
    mode. */
module BatchPublishShorts {

  import opened Common
  import opened Text
  import opened Batch
  import PublishShort

  const METADATA_DIR := "youtube-metadata/shorts/"

  const REPORT_PATH := "published-shorts.json"

  /** The shorts list: every `.json` file of the shorts metadata directory,
      read and sorted by week; none is excluded. */
  function Shorts(entries: seq<string>, disk: Disk): seq<AlbumInfo>
    requires Readable(METADATA_DIR, JsonFiles(entries), disk)
  {
    SortByWeek(Infos(METADATA_DIR, JsonFiles(entries), disk))
  }

  /** The shorts list is sorted by week and holds exactly the shorts read
      from the `.json` files of the directory, each as often as it was
      read; shorts of the same week keep their directory order. */
  lemma ShortsListed(entries: seq<string>, disk: Disk)
    requires Readable(METADATA_DIR, JsonFiles(entries), disk)
    ensures SortedByWeek(Shorts(entries, disk))
    ensures multiset(Shorts(entries, disk)) == multiset(Infos(METADATA_DIR, JsonFiles(entries), disk))
    ensures forall w :: OfWeek(Shorts(entries, disk), w) == OfWeek(Infos(METADATA_DIR, JsonFiles(entries), disk), w)
    ensures forall f :: f in entries && EndsWith(f, ".json") ==>
              InfoOf(disk.documents[METADATA_DIR + f]) in Shorts(entries, disk)
  {
    var files := JsonFiles(entries);
    var infos := Infos(METADATA_DIR, files, disk);
    SortByWeekCorrect(infos);
    forall f | f in entries && EndsWith(f, ".json")
      ensures InfoOf(disk.documents[METADATA_DIR + f]) in Shorts(entries, disk)
    {
      var i :| 0 <= i < |files| && files[i] == f;
      assert infos[i] == InfoOf(disk.documents[METADATA_DIR + f]);
      assert infos[i] in multiset(Shorts(entries, disk));
    }
  }

  /** What `publishShort` does for each short, in list order. */
  function Outcomes(shorts: seq<AlbumInfo>, disk: Disk, apis: seq<PublishShort.Api>): seq<Outcome>
    requires |apis| == |shorts|
  {
    seq(|shorts|, i requires 0 <= i < |shorts| => PublishShort.PublishShort(shorts[i].slug, disk, apis[i]).result)
  }

  /** Test mode on the sorted list: publish the first short only and
      return its result untagged; a failure propagates. */
  method PublishFirst(shorts: seq<AlbumInfo>, disk: Disk, apis: seq<PublishShort.Api>)
    returns (result: Result<seq<Report>>, attempted: seq<string>)
    requires |apis| == |shorts|
    ensures shorts == [] ==> result == Err(NO_FIRST_ENTRY) && attempted == []
    ensures shorts != [] ==>
              var first := PublishShort.PublishShort(shorts[0].slug, disk, apis[0]).result;
              && attempted == [shorts[0].slug]
              && (first.Ok? ==> result == Ok([Report(first.value, None)]))
              && (first.Err? ==> result == Err(first.error))
  {
    if |shorts| == 0 {
      return Err(NO_FIRST_ENTRY), [];
    }
    var short := shorts[0];
    var run := PublishShort.PublishShort(short.slug, disk, apis[0]);
    attempted := [short.slug];
    match run.result
    case Err(e) => result := Err(e);
    case Ok(published) => result := Ok([Report(published, None)]);
  }

  /** All mode on the sorted list: attempt every short in order, keep the
      successes tagged with their week, and carry on past a failure. */
  method PublishEach(shorts: seq<AlbumInfo>, disk: Disk, apis: seq<PublishShort.Api>)
    returns (results: seq<Report>, attempted: seq<string>)
    requires |apis| == |shorts|
    ensures attempted == Slugs(shorts)
    ensures results == Reports(shorts, Outcomes(shorts, disk, apis))
  {
    results, attempted := [], [];
    ghost var outcomes := Outcomes(shorts, disk, apis);
    for i := 0 to |shorts|
      invariant results == Reports(shorts[..i], outcomes[..i])
      invariant attempted == Slugs(shorts[..i])
    {
      ReportsSnoc(shorts[..i], outcomes[..i], shorts[i], outcomes[i]);
      SlugsStep(shorts, i);
      assert outcomes[..i + 1] == outcomes[..i] + [outcomes[i]];
      var run := PublishShort.PublishShort(shorts[i].slug, disk, apis[i]);
      assert run.result == outcomes[i];
      attempted := attempted + [shorts[i].slug];
      if run.result.Ok? {
        results := results + [Report(run.result.value, Some(shorts[i].week))];
      }
    }
    assert shorts[..|shorts|] == shorts && outcomes[..|outcomes|] == outcomes;
  }

  /** `batchPublishShorts(mode)` over the directory listing `entries`, with
      the outcome of the API calls for each short in sorted order. Returns
      what it resolves to or throws, the slugs passed to `publishShort`,
      and the report file written. */
  method BatchPublishShorts(mode: Mode, entries: seq<string>, disk: Disk, apis: seq<PublishShort.Api>)
    returns (result: Result<seq<Report>>, attempted: seq<string>, reportFile: Option<seq<Report>>)
    requires Readable(METADATA_DIR, JsonFiles(entries), disk)
    requires |apis| == |Shorts(entries, disk)|
    // test mode: one attempt on the lowest-week short, its failure propagates, no report
    ensures var shorts := Shorts(entries, disk);
            mode == Test ==>
              && reportFile == None
              && (shorts == [] ==> result == Err(NO_FIRST_ENTRY) && attempted == [])
              && (shorts != [] ==>
                    var first := PublishShort.PublishShort(shorts[0].slug, disk, apis[0]).result;
                    && attempted == [shorts[0].slug]
                    && (first.Ok? ==> result == Ok([Report(first.value, None)]))
                    && (first.Err? ==> result == Err(first.error)))
    // all mode: every short attempted in order; the report is exactly the successes
    ensures var shorts := Shorts(entries, disk);
            mode == All ==>
              && attempted == Slugs(shorts)
              && result == Ok(Reports(shorts, Outcomes(shorts, disk, apis)))
              && reportFile == Some(result.value)
  {
    var shorts := SortByWeek(Infos(METADATA_DIR, JsonFiles(entries), disk));
    if mode == Test {
      result, attempted := PublishFirst(shorts, disk, apis);
      reportFile := None;
    } else {
      var results;
      results, attempted := PublishEach(shorts, disk, apis);
      result, reportFile := Ok(results), Some(results);
    }
  }

  /** `tsx scripts/batch-publish-shorts.ts [--all]`: all mode only with
      `--all`; exit 1 exactly when `batchPublishShorts` rejects, which only
      test mode can. */
  method Cli(argv: seq<string>, entries: seq<string>, disk: Disk, apis: seq<PublishShort.Api>)
    returns (code: int)
    requires Readable(METADATA_DIR, JsonFiles(entries), disk)
    requires |apis| == |Shorts(entries, disk)|
    ensures ModeOf(argv) == All ==> code == 0
    ensures var shorts := Shorts(entries, disk);
            ModeOf(argv) == Test ==>
              (code == 1 <==> shorts == [] || PublishShort.PublishShort(shorts[0].slug, disk, apis[0]).result.Err?)
  {
    var result, _, _ := BatchPublishShorts(ModeOf(argv), entries, disk, apis);
    code := ExitCode(result);
  }
}
