/** The weekly planner (app.py `page_planner` and the planner and history
    collections it edits). The collections live in two JSON files that every
    page loads whole and saves whole; here they are two sequences. */
module Planner {
  import opened Wrappers
  import opened Seqs
  import opened Sorting
  import opened Dates

  datatype Status = Planned | Done

  /** One scheduled post. `status` is None for an entry saved without that
      key, which every reader takes as `planned`; `score` is None for JSON null. */
  datatype Event = Event(
    id: string, day: Day, time: Minute, platform: string,
    title: string, caption: string, hashtags: seq<string>,
    score: Option<real>, status: Option<Status>, createdAt: string)

  /** One completed post as the performance page lists it. */
  datatype HistoryRecord = HistoryRecord(
    id: string, day: Day, time: Minute, platform: string,
    title: string, score: Option<real>, completedAt: string)

  /** The sort key `(e["day"], e["time"])`. */
  function SlotKey(e: Event): int {
    Rank(e.day, e.time)
  }

  function InWindow(w: Week): Event -> bool {
    (e: Event) => w.monday <= e.day <= w.sunday
  }

  function OnDay(d: int): Event -> bool {
    (e: Event) => e.day == d
  }

  /** The events of the week, ordered by day and time (`week_events`). */
  function WeekEvents(events: seq<Event>, w: Week): seq<Event> {
    SortBy(Filter(events, InWindow(w)), SlotKey)
  }

  /** The list shown in the column of day `w.monday + i` (`by_day[...]`). */
  function DayColumn(events: seq<Event>, w: Week, i: int): seq<Event> {
    Filter(WeekEvents(events, w), OnDay(w.monday + i))
  }

  /** The loop that deals the week's events into seven per-day lists, one for
      each day from `monday` to `monday + 6`, keeping their order. An event
      dated outside those days would have no list to go to (a KeyError). */
  method BucketByDay(monday: Day, weekEvents: seq<Event>) returns (byDay: seq<seq<Event>>)
    requires forall k :: 0 <= k < |weekEvents| ==> monday <= weekEvents[k].day <= monday + 6
    ensures |byDay| == 7
    ensures forall i :: 0 <= i < 7 ==> byDay[i] == Filter(weekEvents, OnDay(monday + i))
  {
    byDay := [[], [], [], [], [], [], []];
    var j := 0;
    while j < |weekEvents|
      invariant 0 <= j <= |weekEvents|
      invariant |byDay| == 7
      invariant forall i :: 0 <= i < 7 ==> byDay[i] == Filter(weekEvents[..j], OnDay(monday + i))
    {
      var e := weekEvents[j];
      var slot := e.day - monday;
      ghost var before := byDay;
      byDay := byDay[slot := byDay[slot] + [e]];
      assert weekEvents[..j + 1] == weekEvents[..j] + [e];
      forall i | 0 <= i < 7
        ensures byDay[i] == Filter(weekEvents[..j + 1], OnDay(monday + i))
      {
        FilterSnoc(weekEvents[..j], e, OnDay(monday + i));
        assert before[i] == Filter(weekEvents[..j], OnDay(monday + i));
      }
      j := j + 1;
    }
    assert weekEvents[..j] == weekEvents;
  }

  /** The planner board for the week holding `anchor`: the week and its seven
      day columns, or None where the week's Sunday is past 9999-12-31. */
  method WeekView(events: seq<Event>, anchor: Day) returns (view: Option<(Week, seq<seq<Event>>)>)
    ensures view.None? <==> WeekBounds(anchor).None?
    ensures view.Some? ==> view.value.0 == WeekBounds(anchor).value
    ensures view.Some? ==> |view.value.1| == 7
    ensures view.Some? ==> forall i :: 0 <= i < 7 ==> view.value.1[i] == DayColumn(events, view.value.0, i)
  {
    var bounds := WeekBounds(anchor);
    if bounds.None? {
      return None;
    }
    var w := bounds.value;
    var weekEvents := WeekEvents(events, w);
    assert forall k :: 0 <= k < |weekEvents| ==> w.monday <= weekEvents[k].day <= w.monday + 6 by {
      WeekEventsInWeek(events, w);
    }
    var byDay := BucketByDay(w.monday, weekEvents);
    DealtColumns(events, w, byDay);
    return Some((w, byDay));
  }

  /** The seven lists dealt from the week's events are the day columns.
      A proof step of `WeekView`: it folds the filter back into `DayColumn`
      so that the method's proof does not unfold the column definition. */
  lemma DealtColumns(events: seq<Event>, w: Week, byDay: seq<seq<Event>>)
    requires |byDay| == 7
    requires forall i :: 0 <= i < 7 ==> byDay[i] == Filter(WeekEvents(events, w), OnDay(w.monday + i))
    ensures forall i :: 0 <= i < 7 ==> byDay[i] == DayColumn(events, w, i)
  {
  }

  /** Only events of the week reach the week's list. */
  lemma WeekEventsInWeek(events: seq<Event>, w: Week)
    ensures forall k :: 0 <= k < |WeekEvents(events, w)| ==>
      w.monday <= WeekEvents(events, w)[k].day <= w.sunday
  {
    var inWeek := Filter(events, InWindow(w));
    var sorted := WeekEvents(events, w);
    FilterMembers(events, InWindow(w));
    forall k | 0 <= k < |sorted| ensures w.monday <= sorted[k].day <= w.sunday {
      assert sorted[k] in multiset(sorted);
      assert sorted[k] in inWeek;
    }
  }

  /** Each column holds exactly the planner's events of that day, each as
      many times as the planner holds it. */
  lemma ColumnContents(events: seq<Event>, w: Week, i: int)
    requires w.sunday == w.monday + 6 && 0 <= i < 7
    ensures multiset(DayColumn(events, w, i)) == multiset(Filter(events, OnDay(w.monday + i)))
  {
    SortedColumn(events, w, i);
    DayInWeekFilter(events, w, i);
  }

  /** Sorting the week's events leaves each day's events as they were, up to order. */
  lemma SortedColumn(events: seq<Event>, w: Week, i: int)
    ensures multiset(DayColumn(events, w, i)) == multiset(Filter(Filter(events, InWindow(w)), OnDay(w.monday + i)))
  {
    var inWeek := Filter(events, InWindow(w));
    assert WeekEvents(events, w) == SortBy(inWeek, SlotKey);
    assert DayColumn(events, w, i) == Filter(WeekEvents(events, w), OnDay(w.monday + i));
    SortThenFilter(inWeek, SlotKey, OnDay(w.monday + i));
  }

  /** Taking a day of the week from the week's events is taking it from the planner. */
  lemma DayInWeekFilter(events: seq<Event>, w: Week, i: int)
    requires w.sunday == w.monday + 6 && 0 <= i < 7
    ensures Filter(Filter(events, InWindow(w)), OnDay(w.monday + i)) == Filter(events, OnDay(w.monday + i))
  {
    DayWithinWeek(w, i);
    FilterStronger(events, InWindow(w), OnDay(w.monday + i));
  }

  /** Every event of the week's day `i` lies in the week. */
  lemma DayWithinWeek(w: Week, i: int)
    requires w.sunday == w.monday + 6 && 0 <= i < 7
    ensures forall e: Event :: OnDay(w.monday + i)(e) ==> InWindow(w)(e)
  {
  }

  /** An event of the planner is on the board if and only if its day lies in
      the week, and then in the column of its own day only. */
  lemma OnBoardIffInWeek(events: seq<Event>, w: Week, e: Event)
    requires w.sunday == w.monday + 6
    requires e in events
    ensures (exists i :: 0 <= i < 7 && e in DayColumn(events, w, i)) <==> w.monday <= e.day <= w.sunday
    ensures forall i :: 0 <= i < 7 && e in DayColumn(events, w, i) ==> e.day == w.monday + i
  {
    forall i | 0 <= i < 7
      ensures e in DayColumn(events, w, i) <==> e.day == w.monday + i
    {
      ColumnContents(events, w, i);
      FilterCount(events, OnDay(w.monday + i));
      FilterMembers(events, OnDay(w.monday + i));
      assert e in DayColumn(events, w, i) <==> e in multiset(DayColumn(events, w, i));
    }
    if w.monday <= e.day <= w.sunday {
      assert e in DayColumn(events, w, e.day - w.monday);
    }
  }

  /** Within a column the posts run in ascending order of time. */
  lemma ColumnSortedByTime(events: seq<Event>, w: Week, i: int)
    requires 0 <= i < 7
    ensures forall j, k :: 0 <= j < k < |DayColumn(events, w, i)| ==>
      DayColumn(events, w, i)[j].time <= DayColumn(events, w, i)[k].time
  {
    ColumnSortedBySlot(events, w, i);
    ColumnOnDay(events, w, i);
    SameDayByTime(DayColumn(events, w, i), w.monday + i);
  }

  /** A column keeps the (day, time) order of the week's list. */
  lemma ColumnSortedBySlot(events: seq<Event>, w: Week, i: int)
    ensures SortedBy(DayColumn(events, w, i), SlotKey)
  {
    FilterSorted(WeekEvents(events, w), SlotKey, OnDay(w.monday + i));
  }

  /** Every event of column `i` is dated `monday + i`. */
  lemma ColumnOnDay(events: seq<Event>, w: Week, i: int)
    ensures forall x :: x in DayColumn(events, w, i) ==> x.day == w.monday + i
  {
    FilterMembers(WeekEvents(events, w), OnDay(w.monday + i));
  }

  /** A list sorted by slot whose events all fall on one day is in ascending
      order of time. */
  lemma SameDayByTime(col: seq<Event>, d: int)
    requires SortedBy(col, SlotKey)
    requires forall x :: x in col ==> x.day == d
    ensures forall j, k :: 0 <= j < k < |col| ==> col[j].time <= col[k].time
  {
    forall j, k | 0 <= j < k < |col| ensures col[j].time <= col[k].time {
      assert col[j] in col && col[k] in col;
      assert SlotKey(col[j]) <= SlotKey(col[k]);
      RankOrder(col[j].day, col[j].time, col[k].day, col[k].time);
    }
  }

  /** Everything at slot (d, t) is on day d and so in any week holding d. */
  lemma SlotWithinDay(w: Week, d: Day, t: Minute)
    requires w.monday <= d <= w.sunday
    ensures forall e: Event :: HasKey(SlotKey, Rank(d, t))(e) ==> OnDay(d)(e) && InWindow(w)(e)
  {
    forall e: Event | HasKey(SlotKey, Rank(d, t))(e) ensures OnDay(d)(e) && InWindow(w)(e) {
      assert SlotKey(e) == Rank(d, t);
      RankOrder(e.day, e.time, d, t);
    }
  }

  /** Posts of one day at the same time keep the order they have in the planner
      (Python's sort is stable). */
  lemma ColumnKeepsPlannerOrder(events: seq<Event>, w: Week, i: int, t: Minute)
    requires w.sunday == w.monday + 6 && 0 <= i < 7
    ensures Filter(DayColumn(events, w, i), HasKey(SlotKey, Rank(w.monday + i, t)))
         == Filter(events, HasKey(SlotKey, Rank(w.monday + i, t)))
  {
    var d: Day := w.monday + i;
    var slot := HasKey(SlotKey, Rank(d, t));
    SlotWithinDay(w, d, t);
    var inWeek := Filter(events, InWindow(w));
    var sorted := SortBy(inWeek, SlotKey);
    assert Filter(DayColumn(events, w, i), slot) == Filter(sorted, slot) by {
      assert DayColumn(events, w, i) == Filter(sorted, OnDay(d));
      FilterStronger(sorted, OnDay(d), slot);
    }
    assert Filter(sorted, slot) == Filter(inWeek, slot) by {
      SortStable(inWeek, SlotKey, Rank(d, t));
    }
    assert Filter(inWeek, slot) == Filter(events, slot) by {
      FilterStronger(events, InWindow(w), slot);
    }
  }

  /** An event added to the planner appears on the board of any week holding
      its day, in its day's column, exactly once more than before. */
  lemma AddedEventShown(events: seq<Event>, e: Event, w: Week)
    requires w.sunday == w.monday + 6 && w.monday <= e.day <= w.sunday
    ensures e in DayColumn(events + [e], w, e.day - w.monday)
    ensures multiset(DayColumn(events + [e], w, e.day - w.monday))[e]
         == multiset(DayColumn(events, w, e.day - w.monday))[e] + 1
  {
    var i := e.day - w.monday;
    var day := OnDay(w.monday + i);
    ColumnContents(events + [e], w, i);
    ColumnContents(events, w, i);
    FilterSnoc(events, e, day);
    FilterCount(events + [e], day);
    FilterMembers(events + [e], day);
  }

  // ---- Editing the planner ----

  function IdIsNot(id: string): Event -> bool {
    (e: Event) => e.id != id
  }

  /** The planner without every event carrying `id` (the "Remover" button). */
  function WithoutId(events: seq<Event>, id: string): seq<Event> {
    Filter(events, IdIsNot(id))
  }

  /** Removing deletes every event with the id, keeps every other event as
      often as before, and leaves the planner as it was when no event has the id. */
  lemma RemoveSpec(events: seq<Event>, id: string)
    ensures forall e :: multiset(WithoutId(events, id))[e] == if e.id == id then 0 else multiset(events)[e]
    ensures (forall k :: 0 <= k < |events| ==> events[k].id != id) ==> WithoutId(events, id) == events
  {
    FilterCount(events, IdIsNot(id));
    if forall k :: 0 <= k < |events| ==> events[k].id != id {
      FilterKeepsAll(events, IdIsNot(id));
    }
  }

  /** Removing keeps the relative order of what is left: removing from a
      concatenation removes from each part. */
  lemma RemoveKeepsOrder(a: seq<Event>, b: seq<Event>, id: string)
    ensures WithoutId(a + b, id) == WithoutId(a, id) + WithoutId(b, id)
  {
    FilterConcat(a, b, IdIsNot(id));
  }

  /** The history record written when an event is marked as done. */
  function Completion(e: Event, completedAt: string): (h: HistoryRecord)
    ensures h.id == e.id && h.day == e.day && h.time == e.time && h.platform == e.platform
    ensures h.title == e.title && h.score == e.score && h.completedAt == completedAt
  {
    HistoryRecord(e.id, e.day, e.time, e.platform, e.title, e.score, completedAt)
  }

  /** The planner after the event at position `i` is marked as done. */
  function MarkDone(events: seq<Event>, i: nat): (r: seq<Event>)
    requires i < |events|
    ensures |r| == |events| && r[i].status == Some(Done)
    ensures r[i] == events[i].(status := Some(Done))
    ensures forall k :: 0 <= k < |events| && k != i ==> r[k] == events[k]
  {
    events[i := events[i].(status := Some(Done))]
  }

  /** Marking the same event done twice leaves the planner as once does. */
  lemma MarkDoneIdempotent(events: seq<Event>, i: nat)
    requires i < |events|
    ensures MarkDone(MarkDone(events, i), i) == MarkDone(events, i)
  {
  }

  /** The planner and history collections, as loaded from their files. */
  class Store {
    var events: seq<Event>
    var history: seq<HistoryRecord>

    constructor (events0: seq<Event>, history0: seq<HistoryRecord>)
      ensures events == events0 && history == history0
    {
      events, history := events0, history0;
    }

    /** `events.append(...)` followed by saving the planner. */
    method Append(e: Event)
      modifies this`events
      ensures events == old(events) + [e]
    {
      events := events + [e];
    }

    /** "Marcar como concluído" on the event at position `i`: it is marked
        done and stays in the planner, and one history record is appended,
        again on every further press. */
    method Complete(i: nat, completedAt: string)
      requires i < |events|
      modifies this
      ensures events == MarkDone(old(events), i)
      ensures history == old(history) + [Completion(old(events)[i], completedAt)]
    {
      var e := events[i];
      events := events[i := e.(status := Some(Done))];
      history := history + [Completion(e, completedAt)];
    }

    /** "Remover": the planner is rebuilt without the events carrying `id`. */
    method Remove(id: string)
      modifies this`events
      ensures events == WithoutId(old(events), id)
    {
      events := WithoutId(events, id);
    }
  }
}
