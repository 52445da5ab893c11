/** The per-user session of the app (Streamlit's `st.session_state`): the
    daily generation and planner-add counters with the date they belong to,
    the planner's week anchor, and the last generated variations with their
    analysis. A field that the session does not hold yet is None. */
module SessionState {
  import opened Wrappers
  import opened Dates
  import opened Plans
  import opened Content

  class Session {
    var genDate: Option<Day>
    var genCount: nat
    var plannerDate: Option<Day>
    var plannerAddedToday: nat
    var anchor: Option<Day>
    var lastVariations: Option<seq<Variant>>
    var lastAnalysis: seq<Analysis>

    /** A fresh session, before `init_session_state` first runs. */
    constructor ()
      ensures genDate == None && plannerDate == None && anchor == None && lastVariations == None
      ensures genCount == 0 && plannerAddedToday == 0 && lastAnalysis == []
    {
      genDate, genCount := None, 0;
      plannerDate, plannerAddedToday := None, 0;
      anchor := None;
      lastVariations, lastAnalysis := None, [];
    }

    /** Every key that the pages read is present. */
    ghost predicate Ready()
      reads this
    {
      genDate.Some? && plannerDate.Some? && anchor.Some? && lastVariations.Some?
    }

    /** `init_session_state`, run at the top of every page load: each daily
        counter restarts at 0 when its date is missing or is not `today`. */
    method Init(today: Day)
      modifies this
      ensures Ready()
      ensures genDate == Some(today) && plannerDate == Some(today)
      ensures genCount == if old(genDate) == Some(today) then old(genCount) else 0
      ensures plannerAddedToday == if old(plannerDate) == Some(today) then old(plannerAddedToday) else 0
      ensures anchor == if old(anchor).Some? then old(anchor) else Some(today)
      ensures lastVariations == if old(lastVariations).Some? then old(lastVariations) else Some([])
      ensures lastAnalysis == if old(lastVariations).Some? then old(lastAnalysis) else []
    {
      if genDate.None? {
        genDate, genCount := Some(today), 0;
      }
      if genDate != Some(today) {
        genDate, genCount := Some(today), 0;
      }
      if plannerDate.None? {
        plannerDate, plannerAddedToday := Some(today), 0;
      }
      if plannerDate != Some(today) {
        plannerDate, plannerAddedToday := Some(today), 0;
      }
      if anchor.None? {
        anchor := Some(today);
      }
      if lastVariations.None? {
        lastVariations, lastAnalysis := Some([]), [];
      }
    }

    /** A press of "Gerar agora": refused once today's generations reach the
        plan's limit. An admitted press stores the new variations and, where
        the plan has analysis, their analysis, and raises the count by one.
        `generated` and `analysed` are the language model's answers, None
        where the call raises: the exception ends the page run, so what was
        stored before it stays and the count is not raised. `ran` says that
        the press went through to the end. */
    method Generate(plan: string, generated: Option<seq<Variant>>, analysed: Option<seq<Analysis>>)
      returns (ran: bool)
      modifies this`genCount, this`lastVariations, this`lastAnalysis
      ensures ran <==> old(genCount) < Limits(plan).maxGenDay && generated.Some?
                       && (Limits(plan).analysisEnabled ==> analysed.Some?)
      ensures ran ==> Gate(ran, genCount) == QuotaStep(old(genCount), Limits(plan).maxGenDay)
      ensures !ran ==> genCount == old(genCount)
      ensures lastVariations == if old(genCount) < Limits(plan).maxGenDay && generated.Some?
                                then generated else old(lastVariations)
      ensures lastAnalysis == if !ran then old(lastAnalysis)
                              else if Limits(plan).analysisEnabled then analysed.value
                              else []
    {
      var limits := Limits(plan);
      ran := false;
      if genCount < limits.maxGenDay {
        if generated.None? {
          return;
        }
        lastVariations := generated;
        if limits.analysisEnabled {
          if analysed.None? {
            return;
          }
          lastAnalysis := analysed.value;
        } else {
          lastAnalysis := [];
        }
        genCount := genCount + 1;
        ran := true;
      }
    }

    /** The previous/next week buttons: the anchor moves by `days` (plus or
        minus 7) unless the new date would leave Python's date range. */
    method ShiftWeek(days: int) returns (ok: bool)
      requires anchor.Some?
      requires days == 7 || days == -7
      modifies this`anchor
      ensures ok <==> ShiftAnchor(old(anchor).value, days).Some?
      ensures anchor == if ok then ShiftAnchor(old(anchor).value, days) else old(anchor)
    {
      var moved := ShiftAnchor(anchor.value, days);
      ok := moved.Some?;
      if ok {
        anchor := moved;
      }
    }

    /** Picking a date in the anchor field. */
    method PickAnchor(d: Day)
      modifies this`anchor
      ensures anchor == Some(d)
    {
      anchor := Some(d);
    }
  }
}
