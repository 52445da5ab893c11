/** The performance page (app.py `page_performance`): completed posts, most
    recent slot first. */
module Performance {
  import opened Seqs
  import opened Sorting
  import opened Dates
  import opened Planner

  datatype PerformanceView =
    | Locked              // the Starter plan sees only an upgrade notice
    | NoHistory           // nothing completed yet
    | Table(rows: seq<HistoryRecord>)

  /** `(h["day"], h["time"])` sorted with `reverse=True`: Python keeps that sort
      stable, so it is a stable ascending sort on the negated slot rank. */
  function LatestFirst(h: HistoryRecord): int {
    -Rank(h.day, h.time)
  }

  function PerformancePage(plan: string, history: seq<HistoryRecord>): (r: PerformanceView)
    ensures r.Locked? <==> plan == "Starter"
    ensures r.NoHistory? <==> plan != "Starter" && history == []
    ensures r.Table? ==> multiset(r.rows) == multiset(history)
  {
    if plan == "Starter" then Locked
    else if history == [] then NoHistory
    else Table(SortBy(history, LatestFirst))
  }

  /** The table runs from the latest (day, time) slot to the earliest. */
  lemma TableLatestFirst(plan: string, history: seq<HistoryRecord>)
    requires PerformancePage(plan, history).Table?
    ensures var rows := PerformancePage(plan, history).rows;
      forall j, k :: 0 <= j < k < |rows| ==>
        rows[k].day < rows[j].day || (rows[k].day == rows[j].day && rows[k].time <= rows[j].time)
  {
    var rows := PerformancePage(plan, history).rows;
    forall j, k | 0 <= j < k < |rows|
      ensures rows[k].day < rows[j].day || (rows[k].day == rows[j].day && rows[k].time <= rows[j].time)
    {
      assert LatestFirst(rows[j]) <= LatestFirst(rows[k]);
      RankOrder(rows[k].day, rows[k].time, rows[j].day, rows[j].time);
    }
  }

  /** Records of the same slot keep their history order (for instance the two
      records left by completing one post twice). */
  lemma TableKeepsHistoryOrder(plan: string, history: seq<HistoryRecord>, day: Day, time: Minute)
    requires PerformancePage(plan, history).Table?
    ensures Filter(PerformancePage(plan, history).rows, HasKey(LatestFirst, -Rank(day, time)))
         == Filter(history, HasKey(LatestFirst, -Rank(day, time)))
  {
    var rows := PerformancePage(plan, history).rows;
    assert rows == SortBy(history, LatestFirst);
    SortStable(history, LatestFirst, -Rank(day, time));
  }
}
