/** The "Adicionar ao planner" button of the generation page. */
module Generate {
  import opened Wrappers
  import opened Dates
  import opened Plans
  import opened Content
  import opened Planner
  import opened SessionState

  /** The results page shows the variations in three columns, so only the
      first three have an add button. */
  const Columns: nat := 3

  /** The planner entry made from a variation. */
  function NewEvent(v: Variant, analysis: map<string, Analysis>, id: string, day: Day, time: Minute,
                    platform: string, createdAt: string): (e: Event)
    ensures e.id == id && e.day == day && e.time == time && e.platform == platform
    ensures e.title == v.title && e.caption == v.caption && e.hashtags == v.hashtags
    ensures e.score == ScoreFor(analysis, v.id) && e.status == Some(Planned) && e.createdAt == createdAt
  {
    Event(id, day, time, platform, v.title, v.caption, v.hashtags,
          ScoreFor(analysis, v.id), Some(Planned), createdAt)
  }

  /** Adding variation `k` to the planner on `day` at `time`: refused, with
      nothing changed, once today's adds reach the plan's limit; otherwise
      one `planned` entry is appended after all the existing ones and the
      count of today's adds rises by one. `id` and `createdAt` stand for the
      clock readings the source takes. */
  method AddToPlanner(session: Session, store: Store, plan: string, k: nat, id: string,
                      day: Day, time: Minute, platform: string, createdAt: string)
    returns (added: bool)
    requires session.lastVariations.Some? && k < |session.lastVariations.value| && k < Columns
    modifies session`plannerAddedToday, store`events
    ensures Gate(added, session.plannerAddedToday)
         == QuotaStep(old(session.plannerAddedToday), Limits(plan).maxPlannerDay)
    ensures store.events == if !added then old(store.events)
      else old(store.events) + [NewEvent(session.lastVariations.value[k], AnalysisIndex(session.lastAnalysis),
                                         id, day, time, platform, createdAt)]
  {
    var v := session.lastVariations.value[k];
    var analysis := AnalysisIndex(session.lastAnalysis);
    added := session.plannerAddedToday < Limits(plan).maxPlannerDay;
    if added {
      store.Append(NewEvent(v, analysis, id, day, time, platform, createdAt));
      session.plannerAddedToday := session.plannerAddedToday + 1;
    }
  }
}
