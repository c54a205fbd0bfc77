/** What the two manual batch drivers share: the album list read from a
    metadata directory, its stable sort by week, the two modes, and the
    success-only report. */
module Batch {

  import opened Common
  import opened Text

  /** `AlbumInfo` / `ShortInfo`: the fields read from one metadata file. */
  datatype AlbumInfo = AlbumInfo(slug: string, week: int, publishDate: string, title: string)

  datatype Mode = All | Test

  /** One entry of the returned list: the publish result, tagged with the
      album's week in all mode and untagged in test mode. */
  datatype Report = Report(published: Published, week: Option<int>)

  /** `process.argv[2] === '--all' ? 'all' : 'test'`. */
  function ModeOf(argv: seq<string>): (m: Mode)
    ensures m == All <==> |argv| > 2 && argv[2] == "--all"
  {
    if |argv| > 2 && argv[2] == "--all" then All else Test
  }

  /** The error test mode throws when the list is empty: `albums[0]` is
      `undefined` and reading its `week` fails. */
  const NO_FIRST_ENTRY := "Cannot read properties of undefined (reading 'week')"

  /** `readdirSync(dir).filter(f => f.endsWith('.json'))`, in directory
      order. */
  function JsonFiles(entries: seq<string>): (r: seq<string>)
    ensures forall f :: f in r <==> f in entries && EndsWith(f, ".json")
    ensures |r| <= |entries|
  {
    if entries == [] then []
    else (if EndsWith(entries[0], ".json") then [entries[0]] else []) + JsonFiles(entries[1..])
  }

  function InfoOf(meta: Metadata): AlbumInfo
  {
    AlbumInfo(meta.slug, meta.week, meta.publishDate.text, meta.title)
  }

  /** Every listed file can be read from `dir`. */
  predicate Readable(dir: string, files: seq<string>, disk: Disk)
  {
    forall f :: f in files ==> dir + f in disk.documents
  }

  /** The `map` that reads each file of `dir`. */
  function Infos(dir: string, files: seq<string>, disk: Disk): (r: seq<AlbumInfo>)
    requires Readable(dir, files, disk)
    ensures |r| == |files|
    ensures forall i :: 0 <= i < |files| ==> r[i] == InfoOf(disk.documents[dir + files[i]])
  {
    if files == [] then []
    else [InfoOf(disk.documents[dir + files[0]])] + Infos(dir, files[1..], disk)
  }

  /** `.filter(album => album.slug !== slug)`. */
  function Without(albums: seq<AlbumInfo>, slug: string): (r: seq<AlbumInfo>)
    ensures forall a :: a in r <==> a in albums && a.slug != slug
    ensures |r| <= |albums|
  {
    if albums == [] then []
    else (if albums[0].slug != slug then [albums[0]] else []) + Without(albums[1..], slug)
  }

  /** The filter keeps order and duplicates: it works album by album. */
  lemma {:induction false} WithoutConcat(a: seq<AlbumInfo>, b: seq<AlbumInfo>, slug: string)
    ensures Without(a + b, slug) == Without(a, slug) + Without(b, slug)
    decreases |a|
  {
    if a != [] {
      assert (a + b)[1..] == a[1..] + b;
      WithoutConcat(a[1..], b, slug);
    } else {
      assert a + b == b;
    }
  }

  /** One album is kept exactly when it is not the excluded slug. */
  lemma WithoutSingle(a: AlbumInfo, slug: string)
    ensures Without([a], slug) == if a.slug != slug then [a] else []
  {
  }

  /** The `.json` filter keeps directory order and works entry by entry. */
  lemma {:induction false} JsonFilesConcat(a: seq<string>, b: seq<string>)
    ensures JsonFiles(a + b) == JsonFiles(a) + JsonFiles(b)
    decreases |a|
  {
    if a != [] {
      assert (a + b)[1..] == a[1..] + b;
      JsonFilesConcat(a[1..], b);
    } else {
      assert a + b == b;
    }
  }

  /** One entry is kept exactly when it ends in `.json`. */
  lemma JsonFilesSingle(f: string)
    ensures JsonFiles([f]) == if EndsWith(f, ".json") then [f] else []
  {
  }

  /** The slugs of a list, in order: the publish calls a driver makes. */
  function Slugs(albums: seq<AlbumInfo>): seq<string>
  {
    seq(|albums|, i requires 0 <= i < |albums| => albums[i].slug)
  }

  /** One more album attempted adds its slug at the end. */
  lemma SlugsStep(albums: seq<AlbumInfo>, i: nat)
    requires i < |albums|
    ensures albums[..i + 1] == albums[..i] + [albums[i]]
    ensures Slugs(albums[..i + 1]) == Slugs(albums[..i]) + [albums[i].slug]
  {
    assert albums[..i + 1] == albums[..i] + [albums[i]];
  }

  predicate SortedByWeek(s: seq<AlbumInfo>)
  {
    forall i, j :: 0 <= i < j < |s| ==> s[i].week <= s[j].week
  }

  /** Insertion of one album into a sorted list, after every album of the
      same or a lower week. */
  function InsertByWeek(sorted: seq<AlbumInfo>, a: AlbumInfo): seq<AlbumInfo>
  {
    if sorted == [] then [a]
    else if sorted[|sorted| - 1].week <= a.week then sorted + [a]
    else InsertByWeek(sorted[..|sorted| - 1], a) + [sorted[|sorted| - 1]]
  }

  /** `.sort((a, b) => a.week - b.week)`: a stable sort by week. */
  function SortByWeek(s: seq<AlbumInfo>): seq<AlbumInfo>
  {
    if s == [] then [] else InsertByWeek(SortByWeek(s[..|s| - 1]), s[|s| - 1])
  }

  /** The albums of one week, in list order. */
  function OfWeek(s: seq<AlbumInfo>, week: int): seq<AlbumInfo>
  {
    if s == [] then []
    else OfWeek(s[..|s| - 1], week) + (if s[|s| - 1].week == week then [s[|s| - 1]] else [])
  }

  /** Insertion adds exactly the one album. */
  lemma {:induction false} InsertByWeekPermutes(sorted: seq<AlbumInfo>, a: AlbumInfo)
    ensures multiset(InsertByWeek(sorted, a)) == multiset(sorted) + multiset{a}
    decreases |sorted|
  {
    if sorted != [] && sorted[|sorted| - 1].week > a.week {
      var init, last := sorted[..|sorted| - 1], sorted[|sorted| - 1];
      assert sorted == init + [last];
      InsertByWeekPermutes(init, a);
    }
  }

  /** Inserting an album no later than a bound into a list no later than
      that bound stays no later than it. */
  lemma {:induction false} InsertByWeekBounded(sorted: seq<AlbumInfo>, a: AlbumInfo, w: int)
    requires forall i :: 0 <= i < |sorted| ==> sorted[i].week <= w
    requires a.week <= w
    ensures forall i :: 0 <= i < |InsertByWeek(sorted, a)| ==> InsertByWeek(sorted, a)[i].week <= w
    decreases |sorted|
  {
    if sorted != [] && sorted[|sorted| - 1].week > a.week {
      InsertByWeekBounded(sorted[..|sorted| - 1], a, w);
    }
  }

  /** Insertion keeps a list sorted. */
  lemma {:induction false} InsertByWeekSorted(sorted: seq<AlbumInfo>, a: AlbumInfo)
    requires SortedByWeek(sorted)
    ensures SortedByWeek(InsertByWeek(sorted, a))
    decreases |sorted|
  {
    if sorted != [] && sorted[|sorted| - 1].week > a.week {
      var init, last := sorted[..|sorted| - 1], sorted[|sorted| - 1];
      var r0 := InsertByWeek(init, a);
      var r := r0 + [last];
      InsertByWeekSorted(init, a);
      InsertByWeekBounded(init, a, last.week);
      assert forall i, j :: 0 <= i < j < |r| ==> r[i].week <= r[j].week by {
        forall i, j | 0 <= i < j < |r| ensures r[i].week <= r[j].week {
          if j < |r0| {
            assert r[i] == r0[i] && r[j] == r0[j];
          } else {
            assert r[i] == r0[i];
          }
        }
      }
    }
  }

  /** Insertion puts the album after every album of its own week. */
  lemma {:induction false} InsertByWeekStable(sorted: seq<AlbumInfo>, a: AlbumInfo, w: int)
    ensures OfWeek(InsertByWeek(sorted, a), w) == OfWeek(sorted, w) + (if a.week == w then [a] else [])
    decreases |sorted|
  {
    if sorted == [] {
      assert OfWeek([a], w) == OfWeek([a][..0], w) + (if a.week == w then [a] else []);
    } else {
      var init, last := sorted[..|sorted| - 1], sorted[|sorted| - 1];
      if last.week <= a.week {
        var r := sorted + [a];
        assert r[..|r| - 1] == sorted;
      } else {
        var r0 := InsertByWeek(init, a);
        var r := r0 + [last];
        assert r[..|r| - 1] == r0;
        InsertByWeekStable(init, a, w);
      }
    }
  }

  /** The sort is sorted, a permutation, and stable: the albums of each
      week keep their order. Together these determine it. */
  lemma {:induction false} SortByWeekCorrect(s: seq<AlbumInfo>)
    ensures SortedByWeek(SortByWeek(s))
    ensures multiset(SortByWeek(s)) == multiset(s)
    ensures forall w :: OfWeek(SortByWeek(s), w) == OfWeek(s, w)
    decreases |s|
  {
    if s != [] {
      var init := s[..|s| - 1];
      SortByWeekCorrect(init);
      InsertByWeekSorted(SortByWeek(init), s[|s| - 1]);
      InsertByWeekPermutes(SortByWeek(init), s[|s| - 1]);
      forall w ensures OfWeek(SortByWeek(s), w) == OfWeek(s, w) {
        InsertByWeekStable(SortByWeek(init), s[|s| - 1], w);
      }
      assert s == init + [s[|s| - 1]];
    }
  }

  /** The list returned in all mode: every successful publish, in attempt
      order, tagged with its album's week. */
  function Reports(albums: seq<AlbumInfo>, outcomes: seq<Outcome>): seq<Report>
    requires |outcomes| == |albums|
  {
    if albums == [] then []
    else (if outcomes[0].Ok? then [Report(outcomes[0].value, Some(albums[0].week))] else [])
         + Reports(albums[1..], outcomes[1..])
  }

  /** Reports of a list extended by one album: the loop's step. */
  lemma {:induction false} ReportsSnoc(albums: seq<AlbumInfo>, outcomes: seq<Outcome>, a: AlbumInfo, o: Outcome)
    requires |outcomes| == |albums|
    ensures Reports(albums + [a], outcomes + [o])
            == Reports(albums, outcomes) + (if o.Ok? then [Report(o.value, Some(a.week))] else [])
    decreases |albums|
  {
    if albums == [] {
      assert albums + [a] == [a] && outcomes + [o] == [o];
    } else {
      assert (albums + [a])[1..] == albums[1..] + [a];
      assert (outcomes + [o])[1..] == outcomes[1..] + [o];
      ReportsSnoc(albums[1..], outcomes[1..], a, o);
    }
  }

  /** One entry per success and none for a failure: every entry is the
      result of a successful publish tagged with that album's week, and
      every successful publish has its entry. */
  lemma {:induction false} ReportsExactlySuccesses(albums: seq<AlbumInfo>, outcomes: seq<Outcome>)
    requires |outcomes| == |albums|
    ensures |Reports(albums, outcomes)| == Successes(outcomes)
    ensures forall r :: r in Reports(albums, outcomes) ==>
              exists k :: 0 <= k < |albums| && outcomes[k].Ok? && r == Report(outcomes[k].value, Some(albums[k].week))
    ensures forall k :: 0 <= k < |albums| && outcomes[k].Ok? ==>
              Report(outcomes[k].value, Some(albums[k].week)) in Reports(albums, outcomes)
    decreases |albums|
  {
    if albums != [] {
      ReportsExactlySuccesses(albums[1..], outcomes[1..]);
      forall r | r in Reports(albums[1..], outcomes[1..])
        ensures exists k :: 0 <= k < |albums| && outcomes[k].Ok? && r == Report(outcomes[k].value, Some(albums[k].week))
      {
        var k :| 0 <= k < |albums[1..]| && outcomes[1..][k].Ok? && r == Report(outcomes[1..][k].value, Some(albums[1..][k].week));
        assert albums[1..][k] == albums[k + 1] && outcomes[1..][k] == outcomes[k + 1];
      }
      forall k | 0 <= k < |albums| && outcomes[k].Ok?
        ensures Report(outcomes[k].value, Some(albums[k].week)) in Reports(albums, outcomes)
      {
        if k > 0 {
          assert albums[1..][k - 1] == albums[k] && outcomes[1..][k - 1] == outcomes[k];
        }
      }
    }
  }

  /** The CLI's exit status: 1 when `batchPublish` rejects. */
  function ExitCode(result: Result<seq<Report>>): (code: int)
    ensures code == 1 <==> result.Err?
    ensures code == 0 <==> result.Ok?
  {
    if result.Err? then 1 else 0
  }
}
