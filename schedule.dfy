/** The publishing schedule: one row per week pairing a full video with a
    short, each with its own date and `published` flag, and the two queries
    over it — what is due today, and what comes next. */
module Schedule {

  import opened Common

  /** The `published` flags of a row; the auto-publisher sets them during a
      run. */
  datatype Flags = Flags(video: bool, short: bool)

  /** `ScheduledContent`. */
  datatype ScheduledContent = ScheduledContent(
    week: int,
    videoSlug: string,
    videoDate: Stamp,
    shortSlug: string,
    shortDate: Stamp,
    published: Flags)

  /** An entry of `getItemsDueToday` / `getNextScheduledItem`:
      `{type, slug, date}`. */
  datatype ScheduledItem = ScheduledItem(kind: ContentType, slug: string, date: Stamp)

  function SlugOf(row: ScheduledContent, kind: ContentType): string
  {
    if kind == Video then row.videoSlug else row.shortSlug
  }

  function DateOf(row: ScheduledContent, kind: ContentType): Stamp
  {
    if kind == Video then row.videoDate else row.shortDate
  }

  predicate IsPublished(row: ScheduledContent, kind: ContentType)
  {
    if kind == Video then row.published.video else row.published.short
  }

  /** The entry a row yields for one of its two items. */
  function ItemOf(row: ScheduledContent, kind: ContentType): ScheduledItem
  {
    ScheduledItem(kind, SlugOf(row, kind), DateOf(row, kind))
  }

  /** An item is due when it is unpublished and its date lies in the
      half-open window `[todayStart, todayEnd)`. */
  predicate DueIn(row: ScheduledContent, kind: ContentType, todayStart: int, todayEnd: int)
  {
    !IsPublished(row, kind) && todayStart <= DateOf(row, kind).instant < todayEnd
  }

  /** What one row contributes to the due list: its video, then its short. */
  function RowDue(row: ScheduledContent, todayStart: int, todayEnd: int): seq<ScheduledItem>
  {
    (if DueIn(row, Video, todayStart, todayEnd) then [ItemOf(row, Video)] else [])
    + (if DueIn(row, Short, todayStart, todayEnd) then [ItemOf(row, Short)] else [])
  }

  /** The due list of a table, row by row in table order. */
  function DueItems(rows: seq<ScheduledContent>, todayStart: int, todayEnd: int): seq<ScheduledItem>
  {
    if rows == [] then [] else RowDue(rows[0], todayStart, todayEnd) + DueItems(rows[1..], todayStart, todayEnd)
  }

  /** The due list of two tables one after the other is the one list
      followed by the other: earlier rows' entries come first. */
  lemma {:induction false} DueItemsConcat(a: seq<ScheduledContent>, b: seq<ScheduledContent>, todayStart: int, todayEnd: int)
    ensures DueItems(a + b, todayStart, todayEnd) == DueItems(a, todayStart, todayEnd) + DueItems(b, todayStart, todayEnd)
  {
    if a == [] {
      assert a + b == b;
    } else {
      assert (a + b)[1..] == a[1..] + b;
      DueItemsConcat(a[1..], b, todayStart, todayEnd);
    }
  }

  /** Every due item of every row is in the list ... */
  lemma {:induction false} DueItemsComplete(rows: seq<ScheduledContent>, i: nat, kind: ContentType, todayStart: int, todayEnd: int)
    requires i < |rows| && DueIn(rows[i], kind, todayStart, todayEnd)
    ensures ItemOf(rows[i], kind) in DueItems(rows, todayStart, todayEnd)
  {
    if i > 0 {
      DueItemsComplete(rows[1..], i - 1, kind, todayStart, todayEnd);
    } else {
      assert ItemOf(rows[0], kind) in RowDue(rows[0], todayStart, todayEnd);
    }
  }

  /** ... and every entry of the list is a due item of some row, copying that
      row's slug and date. */
  lemma {:induction false} DueItemsSound(rows: seq<ScheduledContent>, x: ScheduledItem, todayStart: int, todayEnd: int)
    requires x in DueItems(rows, todayStart, todayEnd)
    ensures exists i, kind :: 0 <= i < |rows| && DueIn(rows[i], kind, todayStart, todayEnd) && x == ItemOf(rows[i], kind)
  {
    if x in RowDue(rows[0], todayStart, todayEnd) {
      if DueIn(rows[0], Video, todayStart, todayEnd) && x == ItemOf(rows[0], Video) {
        assert 0 <= 0 < |rows| && DueIn(rows[0], Video, todayStart, todayEnd) && x == ItemOf(rows[0], Video);
      } else {
        assert 0 <= 0 < |rows| && DueIn(rows[0], Short, todayStart, todayEnd) && x == ItemOf(rows[0], Short);
      }
    } else {
      DueItemsSound(rows[1..], x, todayStart, todayEnd);
      var i, kind :| 0 <= i < |rows[1..]| && DueIn(rows[1..][i], kind, todayStart, todayEnd) && x == ItemOf(rows[1..][i], kind);
      assert rows[1..][i] == rows[i + 1];
    }
  }

  /** At most two entries per row. */
  lemma {:induction false} DueItemsBound(rows: seq<ScheduledContent>, todayStart: int, todayEnd: int)
    ensures |DueItems(rows, todayStart, todayEnd)| <= 2 * |rows|
  {
    if rows != [] {
      DueItemsBound(rows[1..], todayStart, todayEnd);
    }
  }

  /** The window is half-open: an unpublished item dated exactly at
      `todayStart` is listed, one dated exactly at `todayEnd` is not due. */
  lemma DueWindowBoundaries(rows: seq<ScheduledContent>, i: nat, kind: ContentType, todayStart: int, todayEnd: int)
    requires i < |rows| && !IsPublished(rows[i], kind) && todayStart < todayEnd
    ensures DateOf(rows[i], kind).instant == todayStart ==> ItemOf(rows[i], kind) in DueItems(rows, todayStart, todayEnd)
    ensures DateOf(rows[i], kind).instant == todayEnd ==> !DueIn(rows[i], kind, todayStart, todayEnd)
  {
    if DateOf(rows[i], kind).instant == todayStart {
      DueItemsComplete(rows, i, kind, todayStart, todayEnd);
    }
  }

  /** `getItemsDueToday()` over the shared table, with the day's window
      given: the loop pushes a row's due video, then its due short. The table
      is only read. */
  method GetItemsDueToday(schedule: array<ScheduledContent>, todayStart: int, todayEnd: int)
    returns (dueItems: seq<ScheduledItem>)
    ensures dueItems == DueItems(schedule[..], todayStart, todayEnd)
  {
    dueItems := [];
    for i := 0 to schedule.Length
      invariant dueItems == DueItems(schedule[..i], todayStart, todayEnd)
    {
      var week := schedule[i];
      assert schedule[..i + 1] == schedule[..i] + [week];
      DueItemsConcat(schedule[..i], [week], todayStart, todayEnd);
      if !week.published.video && todayStart <= week.videoDate.instant && week.videoDate.instant < todayEnd {
        dueItems := dueItems + [ScheduledItem(Video, week.videoSlug, week.videoDate)];
      }
      if !week.published.short && todayStart <= week.shortDate.instant && week.shortDate.instant < todayEnd {
        dueItems := dueItems + [ScheduledItem(Short, week.shortSlug, week.shortDate)];
      }
    }
    assert schedule[..schedule.Length] == schedule[..];
  }

  /** An item still to come: unpublished and dated strictly after now. */
  predicate Upcoming(row: ScheduledContent, kind: ContentType, now: int)
  {
    !IsPublished(row, kind) && DateOf(row, kind).instant > now
  }

  /** The first upcoming item in table order, a row's video before its
      short. */
  function NextItem(rows: seq<ScheduledContent>, now: int): Option<ScheduledItem>
  {
    if rows == [] then None
    else if Upcoming(rows[0], Video, now) then Some(ItemOf(rows[0], Video))
    else if Upcoming(rows[0], Short, now) then Some(ItemOf(rows[0], Short))
    else NextItem(rows[1..], now)
  }

  /** Nothing is upcoming in the rows before `i`, nor before `kind` in row
      `i`. */
  predicate NoneUpcomingBefore(rows: seq<ScheduledContent>, i: nat, kind: ContentType, now: int)
    requires i < |rows|
  {
    (forall j :: 0 <= j < i ==> !Upcoming(rows[j], Video, now) && !Upcoming(rows[j], Short, now))
    && (kind == Short ==> !Upcoming(rows[i], Video, now))
  }

  /** The next item is upcoming, and it is the first upcoming one. */
  lemma {:induction false} NextItemIsFirstUpcoming(rows: seq<ScheduledContent>, now: int)
    requires NextItem(rows, now).Some?
    ensures exists i, kind :: 0 <= i < |rows| && Upcoming(rows[i], kind, now)
              && NextItem(rows, now).value == ItemOf(rows[i], kind) && NoneUpcomingBefore(rows, i, kind, now)
  {
    var x := NextItem(rows, now).value;
    if Upcoming(rows[0], Video, now) {
      assert NoneUpcomingBefore(rows, 0, Video, now);
    } else if Upcoming(rows[0], Short, now) {
      assert NoneUpcomingBefore(rows, 0, Short, now);
    } else {
      NextItemIsFirstUpcoming(rows[1..], now);
      var i, kind :| 0 <= i < |rows[1..]| && Upcoming(rows[1..][i], kind, now)
                     && x == ItemOf(rows[1..][i], kind) && NoneUpcomingBefore(rows[1..], i, kind, now);
      assert rows[1..][i] == rows[i + 1];
      forall j | 0 <= j < i + 1 ensures !Upcoming(rows[j], Video, now) && !Upcoming(rows[j], Short, now) {
        if j > 0 { assert rows[j] == rows[1..][j - 1]; }
      }
      assert NoneUpcomingBefore(rows, i + 1, kind, now);
    }
  }

  /** There is no next item exactly when nothing unpublished lies strictly
      in the future. */
  lemma {:induction false} NextItemNone(rows: seq<ScheduledContent>, now: int)
    ensures NextItem(rows, now).None? <==>
              forall i, kind :: 0 <= i < |rows| ==> !Upcoming(rows[i], kind, now)
  {
    if rows != [] {
      NextItemNone(rows[1..], now);
      if NextItem(rows, now).None? {
        forall i, kind | 0 <= i < |rows| ensures !Upcoming(rows[i], kind, now) {
          if i > 0 { assert rows[i] == rows[1..][i - 1]; }
        }
      }
    }
  }

  /** `getNextScheduledItem()` over the shared table: a scan that returns at
      the first upcoming item. The table is only read. */
  method GetNextScheduledItem(schedule: array<ScheduledContent>, now: int) returns (next: Option<ScheduledItem>)
    ensures next == NextItem(schedule[..], now)
  {
    for i := 0 to schedule.Length
      invariant NextItem(schedule[..], now) == NextItem(schedule[i..], now)
    {
      var week := schedule[i];
      assert schedule[i..][1..] == schedule[i + 1..];
      if !week.published.video && week.videoDate.instant > now {
        return Some(ScheduledItem(Video, week.videoSlug, week.videoDate));
      }
      if !week.published.short && week.shortDate.instant > now {
        return Some(ScheduledItem(Short, week.shortSlug, week.shortDate));
      }
    }
    assert schedule[schedule.Length..] == [];
    return None;
  }

  function At(text: string, instant: int): Stamp { Stamp(text, instant) }

  /** `PUBLISHING_SCHEDULE` as shipped: weeks 1 to 9, videos on Mondays and
      shorts on Tuesdays at 09:00 -08:00 (instants in milliseconds). */
  const PUBLISHING_SCHEDULE: seq<ScheduledContent> := [
    ScheduledContent(1, "cognitive-bloom", At("2026-01-12T09:00:00-08:00", 1768237200000),
                     "scripted-light", At("2026-01-13T09:00:00-08:00", 1768323600000), Flags(true, false)),
    ScheduledContent(2, "deep-piano-focus", At("2026-01-19T09:00:00-08:00", 1768842000000),
                     "soulful-lounge", At("2026-01-20T09:00:00-08:00", 1768928400000), Flags(false, false)),
    ScheduledContent(3, "meditative-ambient", At("2026-01-26T09:00:00-08:00", 1769446800000),
                     "sufi-lofi", At("2026-01-27T09:00:00-08:00", 1769533200000), Flags(false, false)),
    ScheduledContent(4, "scripted-light", At("2026-02-02T09:00:00-08:00", 1770051600000),
                     "vibe-coding", At("2026-02-03T09:00:00-08:00", 1770138000000), Flags(false, false)),
    ScheduledContent(5, "soulful-lounge", At("2026-02-09T09:00:00-08:00", 1770656400000),
                     "relaxed-neo-classical", At("2026-02-10T09:00:00-08:00", 1770742800000), Flags(false, false)),
    ScheduledContent(6, "sufi-lofi", At("2026-02-16T09:00:00-08:00", 1771261200000),
                     "healing-handpan", At("2026-02-17T09:00:00-08:00", 1771347600000), Flags(false, false)),
    ScheduledContent(7, "vibe-coding", At("2026-02-23T09:00:00-08:00", 1771866000000),
                     "cognitive-bloom", At("2026-02-24T09:00:00-08:00", 1771952400000), Flags(false, true)),
    ScheduledContent(8, "relaxed-neo-classical", At("2026-03-02T09:00:00-08:00", 1772470800000),
                     "neural-drift", At("2026-03-03T09:00:00-08:00", 1772557200000), Flags(false, true)),
    ScheduledContent(9, "healing-handpan", At("2026-03-09T09:00:00-08:00", 1773075600000),
                     "deep-piano-focus", At("2026-03-10T09:00:00-08:00", 1773162000000), Flags(false, true))
  ]

  /** The shipped table: weeks 1 to 9 in order, each short a day after its
      video, and a slug reused across rows (`cognitive-bloom` is week 1's
      video and week 7's short). */
  lemma ScheduleTableShape()
    ensures |PUBLISHING_SCHEDULE| == 9
    ensures forall i :: 0 <= i < 9 ==> PUBLISHING_SCHEDULE[i].week == i + 1
    ensures forall i :: 0 <= i < 9 ==>
              PUBLISHING_SCHEDULE[i].shortDate.instant == PUBLISHING_SCHEDULE[i].videoDate.instant + 86400000
    ensures PUBLISHING_SCHEDULE[0].videoSlug == "cognitive-bloom" == PUBLISHING_SCHEDULE[6].shortSlug
  {
  }

  const DAY_MS := 86400000
  /** Local midnight of Monday 19 January 2026 at -08:00. */
  const JAN_19_MIDNIGHT := 1768809600000

  /** On 19 January 2026 (at -08:00) only week 2's video is due. */
  lemma ExampleJanuary19()
    ensures DueItems(PUBLISHING_SCHEDULE, JAN_19_MIDNIGHT, JAN_19_MIDNIGHT + DAY_MS)
            == [ScheduledItem(Video, "deep-piano-focus", At("2026-01-19T09:00:00-08:00", 1768842000000))]
  {
    var t := PUBLISHING_SCHEDULE;
    var s, e := JAN_19_MIDNIGHT, JAN_19_MIDNIGHT + DAY_MS;
    DueItemsConcat(t[..2], t[2..], s, e);
    assert t == t[..2] + t[2..];
    DueItemsNoneAfter(t[2..], e);
    assert DueItems(t[..2], s, e) == RowDue(t[0], s, e) + DueItems(t[1..2], s, e);
    assert t[1..2][1..] == [];
  }

  /** At 10:00 on 19 January 2026 (at -08:00), after week 2's video, the
      next upcoming item is week 2's short. */
  lemma ExampleJanuary19Next()
    ensures NextItem(PUBLISHING_SCHEDULE, JAN_19_MIDNIGHT + 10 * 3600000)
            == Some(ScheduledItem(Short, "soulful-lounge", At("2026-01-20T09:00:00-08:00", 1768928400000)))
  {
    var t := PUBLISHING_SCHEDULE;
    assert t[1..][0] == t[1];
  }

  /** Rows dated entirely at or after the window's end contribute nothing. */
  lemma {:induction false} DueItemsNoneAfter(rows: seq<ScheduledContent>, todayEnd: int)
    requires forall i :: 0 <= i < |rows| ==> rows[i].videoDate.instant >= todayEnd && rows[i].shortDate.instant >= todayEnd
    ensures forall todayStart :: DueItems(rows, todayStart, todayEnd) == []
  {
    if rows != [] {
      DueItemsNoneAfter(rows[1..], todayEnd);
    }
  }
}
