/** The auto-publisher: load the tracking store, publish every item due
    today in order with per-item failure isolation, record each success in
    the tracking store and the schedule's `published` flags, notify after
    every item, and save the store. */
module AutoPublish {

  import opened Common
  import opened Text
  import opened Schedule

  /** One record of `published-tracking.json` (`views` only ever appears on
      shorts loaded from the file). */
  datatype TrackingRecord = TrackingRecord(
    slug: string,
    title: string,
    publishedDate: string,
    publishedManually: bool,
    kind: ContentType,
    status: string,
    videoId: Option<string>,
    views: Option<int>)

  /** `PublishedTracking`. */
  datatype PublishedTracking = PublishedTracking(
    videos: seq<TrackingRecord>,
    shorts: seq<TrackingRecord>,
    lastCheck: string)

  /** One entry of the run's `results` list. */
  datatype ItemResult = ItemResult(
    kind: ContentType,
    slug: string,
    success: bool,
    error: Option<string>,
    videoId: Option<string>,
    url: Option<string>)

  datatype NoticeKind = SuccessNotice | ErrorNotice

  /** The type, subject and message of a notification e-mail. */
  datatype Notification = Notification(kind: NoticeKind, subject: string, message: string)

  function TypeName(kind: ContentType): string
  {
    if kind == Video then "video" else "short"
  }

  /** `loadTracking()`: the stored document, or empty lists stamped with the
      current time when there is no tracking file. */
  function LoadTracking(file: Option<PublishedTracking>, clock: string): (t: PublishedTracking)
    ensures file.None? ==> t.videos == [] && t.shorts == [] && t.lastCheck == clock
    ensures file.Some? ==> t == file.value
  {
    match file
    case None => PublishedTracking([], [], clock)
    case Some(stored) => stored
  }

  /** `new Date().toISOString().split('T')[0]`: the calendar date of an ISO
      timestamp. */
  function DateOfClock(clock: string): string
  {
    Split(clock, 'T')[0]
  }

  /** The record appended for a successful publish. */
  function RecordOf(item: ScheduledItem, p: Published, date: string): TrackingRecord
  {
    TrackingRecord(item.slug, p.title, date, false, item.kind, "published", Some(p.videoId), None)
  }

  function ResultOf(item: ScheduledItem, outcome: Outcome): ItemResult
  {
    match outcome
    case Ok(p) => ItemResult(item.kind, item.slug, true, None, Some(p.videoId), Some(p.url))
    case Err(e) => ItemResult(item.kind, item.slug, false, Some(e), None, None)
  }

  function NoticeOf(item: ScheduledItem, outcome: Outcome): Notification
  {
    match outcome
    case Ok(p) =>
      Notification(SuccessNotice, "Published: " + p.title,
                   "Successfully published " + TypeName(item.kind) + " to YouTube")
    case Err(e) =>
      Notification(ErrorNotice, "Failed to publish " + TypeName(item.kind) + ": " + item.slug,
                   "Error publishing to YouTube: " + e)
  }

  /** `PUBLISHING_SCHEDULE.find(...)`: the first row whose slug for `kind`
      is `slug`. */
  function FindRow(rows: seq<ScheduledContent>, kind: ContentType, slug: string): (r: Option<nat>)
    ensures r.Some? ==> r.value < |rows| && SlugOf(rows[r.value], kind) == slug
  {
    if rows == [] then None
    else if SlugOf(rows[0], kind) == slug then Some(0)
    else match FindRow(rows[1..], kind, slug)
      case None => None
      case Some(j) => Some(j + 1)
  }

  /** The row found is the first match, and none is found exactly when no
      row matches. */
  lemma {:induction false} FindRowFirst(rows: seq<ScheduledContent>, kind: ContentType, slug: string)
    ensures FindRow(rows, kind, slug).Some? ==>
              forall j :: 0 <= j < FindRow(rows, kind, slug).value ==> SlugOf(rows[j], kind) != slug
    ensures FindRow(rows, kind, slug).None? <==> forall j :: 0 <= j < |rows| ==> SlugOf(rows[j], kind) != slug
  {
    if rows != [] && SlugOf(rows[0], kind) != slug {
      FindRowFirst(rows[1..], kind, slug);
      forall j | 0 < j < |rows| ensures rows[j] == rows[1..][j - 1] {}
    }
  }

  /** Two rows that agree on everything but the `published` flags. */
  predicate SameContent(a: ScheduledContent, b: ScheduledContent)
  {
    a.week == b.week && a.videoSlug == b.videoSlug && a.videoDate == b.videoDate
    && a.shortSlug == b.shortSlug && a.shortDate == b.shortDate
  }

  /** The row with its flag for `kind` set. */
  function SetFlag(row: ScheduledContent, kind: ContentType): (r: ScheduledContent)
    ensures SameContent(row, r) && IsPublished(r, kind)
    ensures forall other :: other != kind ==> IsPublished(r, other) == IsPublished(row, other)
  {
    if kind == Video then row.(published := row.published.(video := true))
    else row.(published := row.published.(short := true))
  }

  /** Marking a published item: only the first matching row changes, and
      there only the flag for the item's type. */
  function MarkPublished(rows: seq<ScheduledContent>, kind: ContentType, slug: string): (r: seq<ScheduledContent>)
    ensures |r| == |rows|
    ensures forall i :: 0 <= i < |rows| && FindRow(rows, kind, slug) != Some(i) ==> r[i] == rows[i]
    ensures FindRow(rows, kind, slug).Some? ==> r[FindRow(rows, kind, slug).value] == SetFlag(rows[FindRow(rows, kind, slug).value], kind)
  {
    match FindRow(rows, kind, slug)
    case None => rows
    case Some(i) => rows[i := SetFlag(rows[i], kind)]
  }

  /** The coordinator's state during a run: the tracking document in memory,
      the schedule's rows, the results list and the notifications sent. */
  datatype RunState = RunState(
    tracking: PublishedTracking,
    rows: seq<ScheduledContent>,
    results: seq<ItemResult>,
    notices: seq<Notification>)

  /** The records one item adds to the list for `kind`: its record when it
      is of that type and its publish succeeded. */
  function Gained(item: ScheduledItem, outcome: Outcome, kind: ContentType, date: string): seq<TrackingRecord>
  {
    if outcome.Ok? && item.kind == kind then [RecordOf(item, outcome.value, date)] else []
  }

  function Track(t: PublishedTracking, item: ScheduledItem, outcome: Outcome, date: string): PublishedTracking
  {
    t.(videos := t.videos + Gained(item, outcome, Video, date),
       shorts := t.shorts + Gained(item, outcome, Short, date))
  }

  /** The loop body for one due item and its publish outcome. */
  function Step(st: RunState, item: ScheduledItem, outcome: Outcome, date: string): RunState
  {
    RunState(Track(st.tracking, item, outcome, date),
             if outcome.Ok? then MarkPublished(st.rows, item.kind, item.slug) else st.rows,
             st.results + [ResultOf(item, outcome)],
             st.notices + [NoticeOf(item, outcome)])
  }

  /** The loop over the due items, each paired with its outcome. */
  function Run(st: RunState, items: seq<ScheduledItem>, outcomes: seq<Outcome>, date: string): RunState
    requires |outcomes| == |items|
    decreases |items|
  {
    if items == [] then st
    else Run(Step(st, items[0], outcomes[0], date), items[1..], outcomes[1..], date)
  }

  /** Running one more item at the end is one more step. */
  lemma {:induction false} RunSnoc(st: RunState, items: seq<ScheduledItem>, outcomes: seq<Outcome>,
                                   item: ScheduledItem, outcome: Outcome, date: string)
    requires |outcomes| == |items|
    ensures Run(st, items + [item], outcomes + [outcome], date)
            == Step(Run(st, items, outcomes, date), item, outcome, date)
    decreases |items|
  {
    if items == [] {
      assert items + [item] == [item] && outcomes + [outcome] == [outcome];
    } else {
      assert (items + [item])[1..] == items[1..] + [item];
      assert (outcomes + [outcome])[1..] == outcomes[1..] + [outcome];
      RunSnoc(Step(st, items[0], outcomes[0], date), items[1..], outcomes[1..], item, outcome, date);
    }
  }

  /** The loop's step: the run over the first `i + 1` items is one step
      past the run over the first `i`. */
  lemma RunStep(st: RunState, items: seq<ScheduledItem>, outcomes: seq<Outcome>, i: nat, date: string)
    requires |outcomes| == |items| && i < |items|
    ensures Run(st, items[..i + 1], outcomes[..i + 1], date)
            == Step(Run(st, items[..i], outcomes[..i], date), items[i], outcomes[i], date)
    ensures items[..i + 1] == items[..i] + [items[i]]
  {
    assert items[..i + 1] == items[..i] + [items[i]];
    assert outcomes[..i + 1] == outcomes[..i] + [outcomes[i]];
    RunSnoc(st, items[..i], outcomes[..i], items[i], outcomes[i], date);
  }

  /** The records a run appends for `kind`: one per successful item of that
      type, in due-list order. */
  function NewRecords(items: seq<ScheduledItem>, outcomes: seq<Outcome>, kind: ContentType, date: string): seq<TrackingRecord>
    requires |outcomes| == |items|
  {
    if items == [] then []
    else Gained(items[0], outcomes[0], kind, date) + NewRecords(items[1..], outcomes[1..], kind, date)
  }

  /** The results entries of the due items, one per item, in due order. */
  function ResultsOf(items: seq<ScheduledItem>, outcomes: seq<Outcome>): seq<ItemResult>
    requires |outcomes| == |items|
  {
    seq(|items|, k requires 0 <= k < |items| => ResultOf(items[k], outcomes[k]))
  }

  /** The notifications of the due items, one per item, in due order. */
  function NoticesOf(items: seq<ScheduledItem>, outcomes: seq<Outcome>): seq<Notification>
    requires |outcomes| == |items|
  {
    seq(|items|, k requires 0 <= k < |items| => NoticeOf(items[k], outcomes[k]))
  }

  /** The first due item's entry comes first. */
  lemma ResultsOfCons(items: seq<ScheduledItem>, outcomes: seq<Outcome>)
    requires |outcomes| == |items| && items != []
    ensures ResultsOf(items, outcomes) == [ResultOf(items[0], outcomes[0])] + ResultsOf(items[1..], outcomes[1..])
  {
    var tail := ResultsOf(items[1..], outcomes[1..]);
    forall k | 0 < k < |items| ensures tail[k - 1] == ResultOf(items[k], outcomes[k]) {
      assert items[1..][k - 1] == items[k] && outcomes[1..][k - 1] == outcomes[k];
    }
  }

  /** A run appends the due items' results entries, in due order, to those
      it started with. */
  lemma {:induction false} RunAppendsResults(st: RunState, items: seq<ScheduledItem>, outcomes: seq<Outcome>, date: string)
    requires |outcomes| == |items|
    ensures Run(st, items, outcomes, date).results == st.results + ResultsOf(items, outcomes)
    decreases |items|
  {
    if items != [] {
      var st1 := Step(st, items[0], outcomes[0], date);
      RunAppendsResults(st1, items[1..], outcomes[1..], date);
      ResultsOfCons(items, outcomes);
    }
  }

  /** The first due item's entry comes first. */
  lemma NoticesOfCons(items: seq<ScheduledItem>, outcomes: seq<Outcome>)
    requires |outcomes| == |items| && items != []
    ensures NoticesOf(items, outcomes) == [NoticeOf(items[0], outcomes[0])] + NoticesOf(items[1..], outcomes[1..])
  {
    var tail := NoticesOf(items[1..], outcomes[1..]);
    forall k | 0 < k < |items| ensures tail[k - 1] == NoticeOf(items[k], outcomes[k]) {
      assert items[1..][k - 1] == items[k] && outcomes[1..][k - 1] == outcomes[k];
    }
  }

  /** A run appends the due items' notifications, in due order, to those
      it started with. */
  lemma {:induction false} RunAppendsNotices(st: RunState, items: seq<ScheduledItem>, outcomes: seq<Outcome>, date: string)
    requires |outcomes| == |items|
    ensures Run(st, items, outcomes, date).notices == st.notices + NoticesOf(items, outcomes)
    decreases |items|
  {
    if items != [] {
      var st1 := Step(st, items[0], outcomes[0], date);
      RunAppendsNotices(st1, items[1..], outcomes[1..], date);
      NoticesOfCons(items, outcomes);
    }
  }

  /** Every item gets exactly one results entry, in due-list order,
      following from its own outcome alone; earlier entries are kept. */
  lemma RunResultsList(st: RunState, items: seq<ScheduledItem>, outcomes: seq<Outcome>, date: string)
    requires |outcomes| == |items|
    ensures var r := Run(st, items, outcomes, date).results;
            && |r| == |st.results| + |items|
            && r[..|st.results|] == st.results
            && forall k :: 0 <= k < |items| ==> r[|st.results| + k] == ResultOf(items[k], outcomes[k])
  {
    RunAppendsResults(st, items, outcomes, date);
  }

  /** Every item sends exactly one notification, in due-list order,
      following from its own outcome alone; earlier ones are kept. */
  lemma RunNotices(st: RunState, items: seq<ScheduledItem>, outcomes: seq<Outcome>, date: string)
    requires |outcomes| == |items|
    ensures var n := Run(st, items, outcomes, date).notices;
            && |n| == |st.notices| + |items|
            && n[..|st.notices|] == st.notices
            && forall k :: 0 <= k < |items| ==> n[|st.notices| + k] == NoticeOf(items[k], outcomes[k])
  {
    RunAppendsNotices(st, items, outcomes, date);
  }

  /** Every item gets exactly one results entry and one notification, in
      due-list order, whatever happened to the items before it: a success
      entry and a success notice exactly when its publish succeeded. Earlier
      entries are kept. */
  lemma RunResults(st: RunState, items: seq<ScheduledItem>, outcomes: seq<Outcome>, date: string)
    requires |outcomes| == |items|
    ensures var st' := Run(st, items, outcomes, date);
            && |st'.results| == |st.results| + |items|
            && |st'.notices| == |st.notices| + |items|
            && st'.results[..|st.results|] == st.results
            && st'.notices[..|st.notices|] == st.notices
            && (forall k :: 0 <= k < |items| ==>
                  st'.results[|st.results| + k] == ResultOf(items[k], outcomes[k])
                  && st'.notices[|st.notices| + k] == NoticeOf(items[k], outcomes[k]))
  {
    RunResultsList(st, items, outcomes, date);
    RunNotices(st, items, outcomes, date);
  }

  /** A result entry is a success exactly when the publish succeeded; a
      failure carries the error message and nothing else. */
  lemma ResultOfOutcome(item: ScheduledItem, outcome: Outcome)
    ensures ResultOf(item, outcome).success <==> outcome.Ok?
    ensures ResultOf(item, outcome).kind == item.kind && ResultOf(item, outcome).slug == item.slug
    ensures outcome.Err? ==> ResultOf(item, outcome).error == Some(outcome.error)
                             && ResultOf(item, outcome).videoId.None? && ResultOf(item, outcome).url.None?
    ensures outcome.Ok? ==> ResultOf(item, outcome).error.None?
                            && ResultOf(item, outcome).videoId == Some(outcome.value.videoId)
                            && ResultOf(item, outcome).url == Some(outcome.value.url)
    ensures NoticeOf(item, outcome).kind == (if outcome.Ok? then SuccessNotice else ErrorNotice)
  {
  }

  /** The tracking list for one type. */
  function Records(t: PublishedTracking, kind: ContentType): seq<TrackingRecord>
  {
    if kind == Video then t.videos else t.shorts
  }

  /** One item appends what it gains to the list for each type. */
  lemma TrackRecords(t: PublishedTracking, item: ScheduledItem, outcome: Outcome, kind: ContentType, date: string)
    ensures Records(Track(t, item, outcome, date), kind) == Records(t, kind) + Gained(item, outcome, kind, date)
    ensures Track(t, item, outcome, date).lastCheck == t.lastCheck
  {
  }

  /** The tracking lists only grow: each gains exactly the records of the
      successful items of its type, in order; `lastCheck` is untouched. */
  lemma {:induction false} RunTracking(st: RunState, items: seq<ScheduledItem>, outcomes: seq<Outcome>,
                                       kind: ContentType, date: string)
    requires |outcomes| == |items|
    ensures Records(Run(st, items, outcomes, date).tracking, kind)
            == Records(st.tracking, kind) + NewRecords(items, outcomes, kind, date)
    ensures Run(st, items, outcomes, date).tracking.lastCheck == st.tracking.lastCheck
    decreases |items|
  {
    if items != [] {
      var st1 := Step(st, items[0], outcomes[0], date);
      var rest := NewRecords(items[1..], outcomes[1..], kind, date);
      var g := Gained(items[0], outcomes[0], kind, date);
      RunTracking(st1, items[1..], outcomes[1..], kind, date);
      TrackRecords(st.tracking, items[0], outcomes[0], kind, date);
    }
  }

  /** The new records of both types together number the successes. */
  lemma {:induction false} NewRecordsCount(items: seq<ScheduledItem>, outcomes: seq<Outcome>, date: string)
    requires |outcomes| == |items|
    ensures |NewRecords(items, outcomes, Video, date)| + |NewRecords(items, outcomes, Short, date)| == Successes(outcomes)
  {
    if items != [] {
      NewRecordsCount(items[1..], outcomes[1..], date);
    }
  }

  /** The number of due items of `kind` whose publish succeeded. */
  function SuccessesOfKind(items: seq<ScheduledItem>, outcomes: seq<Outcome>, kind: ContentType): nat
    requires |outcomes| == |items|
  {
    if items == [] then 0
    else (if outcomes[0].Ok? && items[0].kind == kind then 1 else 0)
         + SuccessesOfKind(items[1..], outcomes[1..], kind)
  }

  /** Each type's list gains exactly one record per success of that type. */
  lemma {:induction false} NewRecordsPerKind(items: seq<ScheduledItem>, outcomes: seq<Outcome>, kind: ContentType, date: string)
    requires |outcomes| == |items|
    ensures |NewRecords(items, outcomes, kind, date)| == SuccessesOfKind(items, outcomes, kind)
  {
    if items != [] {
      NewRecordsPerKind(items[1..], outcomes[1..], kind, date);
    }
  }

  /** Every successful item of a type has its record in that type's list. */
  lemma {:induction false} NewRecordsComplete(items: seq<ScheduledItem>, outcomes: seq<Outcome>, kind: ContentType, date: string)
    requires |outcomes| == |items|
    ensures forall k :: 0 <= k < |items| && outcomes[k].Ok? && items[k].kind == kind ==>
              RecordOf(items[k], outcomes[k].value, date) in NewRecords(items, outcomes, kind, date)
  {
    if items != [] {
      var head := Gained(items[0], outcomes[0], kind, date);
      var tail := NewRecords(items[1..], outcomes[1..], kind, date);
      assert NewRecords(items, outcomes, kind, date) == head + tail;
      NewRecordsComplete(items[1..], outcomes[1..], kind, date);
      forall k | 0 < k < |items| && outcomes[k].Ok? && items[k].kind == kind
        ensures RecordOf(items[k], outcomes[k].value, date) in tail
      {
        assert items[1..][k - 1] == items[k] && outcomes[1..][k - 1] == outcomes[k];
      }
    }
  }

  /** Each new record of a type is an unmanual, `'published'` record of a
      successful item of that type, with the title and video id its publish
      returned. */
  lemma {:induction false} NewRecordsSound(items: seq<ScheduledItem>, outcomes: seq<Outcome>, kind: ContentType, date: string)
    requires |outcomes| == |items|
    ensures forall r :: r in NewRecords(items, outcomes, kind, date) ==>
              r.kind == kind && !r.publishedManually && r.status == "published"
              && r.publishedDate == date
              && exists k :: (0 <= k < |items| && outcomes[k].Ok? && items[k].kind == kind
                              && r.slug == items[k].slug && r.title == outcomes[k].value.title
                              && r.videoId == Some(outcomes[k].value.videoId))
  {
    if items != [] {
      var head := Gained(items[0], outcomes[0], kind, date);
      var tail := NewRecords(items[1..], outcomes[1..], kind, date);
      assert NewRecords(items, outcomes, kind, date) == head + tail;
      NewRecordsSound(items[1..], outcomes[1..], kind, date);
      forall r | r in tail
        ensures exists k :: (0 <= k < |items| && outcomes[k].Ok? && items[k].kind == kind
                             && r.slug == items[k].slug && r.title == outcomes[k].value.title
                             && r.videoId == Some(outcomes[k].value.videoId))
      {
        var k :| 0 <= k < |items[1..]| && outcomes[1..][k].Ok? && items[1..][k].kind == kind
                 && r.slug == items[1..][k].slug && r.title == outcomes[1..][k].value.title
                 && r.videoId == Some(outcomes[1..][k].value.videoId);
        assert items[1..][k] == items[k + 1] && outcomes[1..][k] == outcomes[k + 1];
      }
      forall r | r in head
        ensures 0 <= 0 < |items| && outcomes[0].Ok? && items[0].kind == kind
                && r.slug == items[0].slug && r.title == outcomes[0].value.title
                && r.videoId == Some(outcomes[0].value.videoId)
      {
      }
    }
  }

  /** The new records number the successes, those of each type number the
      successes of that type, every success has its record, and each record
      is an unmanual, `'published'` record of a successful item, with the
      title and video id its publish returned. */
  lemma NewRecordsShape(items: seq<ScheduledItem>, outcomes: seq<Outcome>, date: string)
    requires |outcomes| == |items|
    ensures |NewRecords(items, outcomes, Video, date)| + |NewRecords(items, outcomes, Short, date)| == Successes(outcomes)
    ensures forall kind :: |NewRecords(items, outcomes, kind, date)| == SuccessesOfKind(items, outcomes, kind)
    ensures forall kind, k :: 0 <= k < |items| && outcomes[k].Ok? && items[k].kind == kind ==>
              RecordOf(items[k], outcomes[k].value, date) in NewRecords(items, outcomes, kind, date)
    ensures forall kind, r :: r in NewRecords(items, outcomes, kind, date) ==>
              r.kind == kind && !r.publishedManually && r.status == "published"
              && r.publishedDate == date
              && exists k :: (0 <= k < |items| && outcomes[k].Ok? && items[k].kind == kind
                              && r.slug == items[k].slug && r.title == outcomes[k].value.title
                              && r.videoId == Some(outcomes[k].value.videoId))
  {
    NewRecordsCount(items, outcomes, date);
    forall kind: ContentType
      ensures |NewRecords(items, outcomes, kind, date)| == SuccessesOfKind(items, outcomes, kind)
      ensures forall k :: 0 <= k < |items| && outcomes[k].Ok? && items[k].kind == kind ==>
                RecordOf(items[k], outcomes[k].value, date) in NewRecords(items, outcomes, kind, date)
    {
      NewRecordsPerKind(items, outcomes, kind, date);
      NewRecordsComplete(items, outcomes, kind, date);
    }
    NewRecordsSound(items, outcomes, Video, date);
    NewRecordsSound(items, outcomes, Short, date);
  }

  /** Rows only ever gain flags, and keep their week, slugs and dates. */
  predicate Evolved(rows: seq<ScheduledContent>, rows': seq<ScheduledContent>)
  {
    |rows'| == |rows|
    && (forall i :: 0 <= i < |rows| ==> SameContent(rows[i], rows'[i]))
    && (forall i, kind :: 0 <= i < |rows| && IsPublished(rows[i], kind) ==> IsPublished(rows'[i], kind))
  }

  /** Finding a row looks only at slugs, so evolved rows are found alike. */
  lemma FindRowEvolved(rows: seq<ScheduledContent>, rows': seq<ScheduledContent>, kind: ContentType, slug: string)
    requires Evolved(rows, rows')
    ensures FindRow(rows', kind, slug) == FindRow(rows, kind, slug)
  {
    forall j | 0 <= j < |rows| ensures SlugOf(rows'[j], kind) == SlugOf(rows[j], kind) {
      assert SameContent(rows[j], rows'[j]);
    }
    FindRowSameSlugs(rows, rows', kind, slug);
  }

  /** The lookup only reads the slugs for the item's type. */
  lemma {:induction false} FindRowSameSlugs(rows: seq<ScheduledContent>, rows': seq<ScheduledContent>, kind: ContentType, slug: string)
    requires |rows'| == |rows|
    requires forall j :: 0 <= j < |rows| ==> SlugOf(rows'[j], kind) == SlugOf(rows[j], kind)
    ensures FindRow(rows', kind, slug) == FindRow(rows, kind, slug)
  {
    if rows != [] && SlugOf(rows[0], kind) != slug {
      forall j | 0 <= j < |rows[1..]| ensures SlugOf(rows'[1..][j], kind) == SlugOf(rows[1..][j], kind) {
        assert rows'[1..][j] == rows'[j + 1] && rows[1..][j] == rows[j + 1];
      }
      FindRowSameSlugs(rows[1..], rows'[1..], kind, slug);
    }
  }

  /** A flag is newly set by this item. */
  predicate SetBy(rows: seq<ScheduledContent>, item: ScheduledItem, outcome: Outcome, i: nat, kind: ContentType)
  {
    outcome.Ok? && item.kind == kind && FindRow(rows, kind, item.slug) == Some(i)
  }

  /** The run's effect on the schedule: rows keep their content and flags;
      each successful item sets its type's flag on the first row with its
      slug; and a flag the run sets was set by such an item. */
  lemma {:induction false} RunSchedule(st: RunState, items: seq<ScheduledItem>, outcomes: seq<Outcome>, date: string)
    requires |outcomes| == |items|
    ensures var rows' := Run(st, items, outcomes, date).rows;
            && Evolved(st.rows, rows')
            && (forall k :: 0 <= k < |items| && outcomes[k].Ok? && FindRow(st.rows, items[k].kind, items[k].slug).Some? ==>
                  IsPublished(rows'[FindRow(st.rows, items[k].kind, items[k].slug).value], items[k].kind))
            && (forall i, kind :: 0 <= i < |st.rows| && !IsPublished(st.rows[i], kind) && IsPublished(rows'[i], kind) ==>
                  exists k :: 0 <= k < |items| && SetBy(st.rows, items[k], outcomes[k], i, kind))
    decreases |items|
  {
    var rows' := Run(st, items, outcomes, date).rows;
    if items == [] {
    } else {
      var st1 := Step(st, items[0], outcomes[0], date);
      StepSchedule(st, items[0], outcomes[0], date);
      RunSchedule(st1, items[1..], outcomes[1..], date);
      EvolvedTransitive(st.rows, st1.rows, rows');
      forall k | 0 <= k < |items| && outcomes[k].Ok? && FindRow(st.rows, items[k].kind, items[k].slug).Some?
        ensures IsPublished(rows'[FindRow(st.rows, items[k].kind, items[k].slug).value], items[k].kind)
      {
        FindRowEvolved(st.rows, st1.rows, items[k].kind, items[k].slug);
        if k > 0 {
          assert items[1..][k - 1] == items[k] && outcomes[1..][k - 1] == outcomes[k];
        }
      }
      forall i, kind | 0 <= i < |st.rows| && !IsPublished(st.rows[i], kind) && IsPublished(rows'[i], kind)
        ensures exists k :: 0 <= k < |items| && SetBy(st.rows, items[k], outcomes[k], i, kind)
      {
        if IsPublished(st1.rows[i], kind) {
          assert SetBy(st.rows, items[0], outcomes[0], i, kind);
        } else {
          var k :| 0 <= k < |items[1..]| && SetBy(st1.rows, items[1..][k], outcomes[1..][k], i, kind);
          assert items[1..][k] == items[k + 1] && outcomes[1..][k] == outcomes[k + 1];
          FindRowEvolved(st.rows, st1.rows, kind, items[k + 1].slug);
          assert SetBy(st.rows, items[k + 1], outcomes[k + 1], i, kind);
        }
      }
    }
  }

  /** One step's effect on the schedule. */
  lemma StepSchedule(st: RunState, item: ScheduledItem, outcome: Outcome, date: string)
    ensures var rows1 := Step(st, item, outcome, date).rows;
            && Evolved(st.rows, rows1)
            && (outcome.Ok? && FindRow(st.rows, item.kind, item.slug).Some? ==>
                  IsPublished(rows1[FindRow(st.rows, item.kind, item.slug).value], item.kind))
            && (forall i, kind :: 0 <= i < |st.rows| && !IsPublished(st.rows[i], kind) && IsPublished(rows1[i], kind) ==>
                  SetBy(st.rows, item, outcome, i, kind))
  {
    var rows1 := Step(st, item, outcome, date).rows;
    if outcome.Ok? {
      forall i, kind | 0 <= i < |st.rows| && !IsPublished(st.rows[i], kind) && IsPublished(rows1[i], kind)
        ensures SetBy(st.rows, item, outcome, i, kind)
      {
        assert FindRow(st.rows, item.kind, item.slug) == Some(i);
      }
    }
  }

  lemma EvolvedTransitive(a: seq<ScheduledContent>, b: seq<ScheduledContent>, c: seq<ScheduledContent>)
    requires Evolved(a, b) && Evolved(b, c)
    ensures Evolved(a, c)
  {
    forall i, kind | 0 <= i < |a| && IsPublished(a[i], kind) ensures IsPublished(c[i], kind) {
      assert IsPublished(b[i], kind);
    }
  }

  /** The auto-publisher's world: the shared schedule table, the tracking
      file, and the side effects of a run that leave the process — the
      publish calls made and the notifications sent. */
  class Publisher {
    const schedule: array<ScheduledContent>
    var trackingFile: Option<PublishedTracking>
    var publishCalls: seq<ScheduledItem>
    var notifications: seq<Notification>

    constructor (schedule: array<ScheduledContent>, trackingFile: Option<PublishedTracking>)
      ensures this.schedule == schedule && this.trackingFile == trackingFile
      ensures publishCalls == [] && notifications == []
    {
      this.schedule := schedule;
      this.trackingFile := trackingFile;
      publishCalls := [];
      notifications := [];
    }

    /** `saveTracking(tracking)`: stamp `lastCheck`, then overwrite the
        whole file. */
    method SaveTracking(tracking: PublishedTracking, clock: string)
      modifies this
      ensures trackingFile == Some(tracking.(lastCheck := clock))
      ensures publishCalls == old(publishCalls) && notifications == old(notifications)
    {
      var stamped := tracking.(lastCheck := clock);
      trackingFile := Some(stamped);
    }

    /** The `find` over the shared table. */
    method FindScheduleRow(kind: ContentType, slug: string) returns (index: Option<nat>)
      ensures index == FindRow(schedule[..], kind, slug)
    {
      FindRowFirst(schedule[..], kind, slug);
      for i := 0 to schedule.Length
        invariant forall j :: 0 <= j < i ==> SlugOf(schedule[..][j], kind) != slug
      {
        if SlugOf(schedule[i], kind) == slug {
          assert SlugOf(schedule[..][i], kind) == slug;
          return Some(i);
        }
      }
      return None;
    }

    /** The body of the loop for one due item: publish it, and on success
        record it, notify and mark the schedule; on failure record the error
        result and notify. */
    method PublishItem(item: ScheduledItem, outcome: Outcome, date: string,
                       tracking: PublishedTracking, results: seq<ItemResult>, ghost st: RunState)
      returns (tracking': PublishedTracking, results': seq<ItemResult>)
      requires tracking == st.tracking && results == st.results && schedule[..] == st.rows
      modifies this, schedule
      ensures var st' := Step(st, item, outcome, date);
              && tracking' == st'.tracking && results' == st'.results && schedule[..] == st'.rows
              && notifications == old(notifications) + [NoticeOf(item, outcome)]
      ensures publishCalls == old(publishCalls) + [item] && trackingFile == old(trackingFile)
    {
      publishCalls := publishCalls + [item];
      match outcome
      case Ok(result) =>
        tracking' := Track(tracking, item, outcome, date);
        results' := results + [ItemResult(item.kind, item.slug, true, None, Some(result.videoId), Some(result.url))];
        notifications := notifications + [NoticeOf(item, outcome)];
        var index := FindScheduleRow(item.kind, item.slug);
        if index.Some? {
          schedule[index.value] := SetFlag(schedule[index.value], item.kind);
        }
      case Err(message) =>
        tracking' := tracking;
        results' := results + [ItemResult(item.kind, item.slug, false, Some(message), None, None)];
        notifications := notifications + [NoticeOf(item, outcome)];
        assert Track(tracking, item, outcome, date) == tracking;
    }

    /** The loop over the due items, from the loaded tracking document and
        an empty results list. */
    method PublishAll(dueItems: seq<ScheduledItem>, outcomes: seq<Outcome>, date: string, tracking: PublishedTracking)
      returns (tracking': PublishedTracking, results: seq<ItemResult>)
      requires |outcomes| == |dueItems|
      modifies this, schedule
      ensures var st := Run(RunState(tracking, old(schedule[..]), [], []), dueItems, outcomes, date);
              && tracking' == st.tracking && results == st.results && schedule[..] == st.rows
              && notifications == old(notifications) + st.notices
      ensures publishCalls == old(publishCalls) + dueItems && trackingFile == old(trackingFile)
    {
      tracking', results := tracking, [];
      ghost var start := RunState(tracking, schedule[..], [], []);
      ghost var st := start;
      for i := 0 to |dueItems|
        invariant st == Run(start, dueItems[..i], outcomes[..i], date)
        invariant tracking' == st.tracking && results == st.results && schedule[..] == st.rows
        invariant notifications == old(notifications) + st.notices
        invariant publishCalls == old(publishCalls) + dueItems[..i]
        invariant trackingFile == old(trackingFile)
      {
        RunStep(start, dueItems, outcomes, i, date);
        tracking', results := PublishItem(dueItems[i], outcomes[i], date, tracking', results, st);
        st := Step(st, dueItems[i], outcomes[i], date);
      }
      assert dueItems[..|dueItems|] == dueItems && outcomes[..|outcomes|] == outcomes;
    }

    /** `autoPublish()` with the clock given (`todayStart`, `todayEnd` of
        the local day and the ISO time of the run) and the outcome of each
        due item's publish call in due-list order. Returns the run's
        results list. */
    method AutoPublish(todayStart: int, todayEnd: int, clock: string, outcomes: seq<Outcome>)
      returns (results: seq<ItemResult>)
      requires |outcomes| == |DueItems(schedule[..], todayStart, todayEnd)|
      modifies this, schedule
      // nothing due: return before any publish, notification or save
      ensures old(DueItems(schedule[..], todayStart, todayEnd)) == [] ==>
                results == [] && schedule[..] == old(schedule[..]) && trackingFile == old(trackingFile)
                && publishCalls == old(publishCalls) && notifications == old(notifications)
      // otherwise: one publish call per due item, then the run's effects, then the save
      ensures var due := old(DueItems(schedule[..], todayStart, todayEnd));
              var st := Run(RunState(LoadTracking(old(trackingFile), clock), old(schedule[..]), [], []),
                            due, outcomes, DateOfClock(clock));
              due != [] ==>
                && publishCalls == old(publishCalls) + due
                && results == st.results
                && notifications == old(notifications) + st.notices
                && schedule[..] == st.rows
                && trackingFile == Some(st.tracking.(lastCheck := clock))
    {
      var tracking := LoadTracking(trackingFile, clock);
      var dueItems := GetItemsDueToday(schedule, todayStart, todayEnd);
      if |dueItems| == 0 {
        return [];
      }
      tracking, results := PublishAll(dueItems, outcomes, DateOfClock(clock), tracking);
      SaveTracking(tracking, clock);
    }
  }
}
