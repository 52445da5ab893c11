/** Plan tiers and the daily quotas they impose (app.py `get_plan_limits`
    and the two gates that consult it). */
module Plans {

  datatype PlanLimits = PlanLimits(maxGenDay: nat, maxPlannerDay: nat, analysisEnabled: bool)

  /** "Starter" gets the small quotas and no automatic analysis; every other
      plan name is treated as "Pro". */
  function Limits(plan: string): (r: PlanLimits)
    ensures plan == "Starter" ==> r == PlanLimits(5, 5, false)
    ensures plan != "Starter" ==> r == PlanLimits(100, 999, true)
  {
    if plan == "Starter" then PlanLimits(5, 5, false)
    else PlanLimits(100, 999, true)
  }

  /** The Starter quotas are the tightest of any plan, and only Starter lacks analysis. */
  lemma StarterIsTightest(plan: string)
    ensures Limits("Starter").maxGenDay <= Limits(plan).maxGenDay
    ensures Limits("Starter").maxPlannerDay <= Limits(plan).maxPlannerDay
    ensures Limits(plan).analysisEnabled <==> plan != "Starter"
  {
  }

  /** The outcome of one press of a quota-gated button. */
  datatype Gate = Gate(admitted: bool, count: nat)

  /** A request is refused once today's count has reached the limit; an
      admitted request raises the count by exactly one. */
  function QuotaStep(count: nat, limit: nat): (r: Gate)
    ensures r.admitted <==> count < limit
    ensures r.count == if r.admitted then count + 1 else count
  {
    if count >= limit then Gate(false, count) else Gate(true, count + 1)
  }

  /** The count after `n` presses of the button on one day. */
  function CountAfter(count: nat, limit: nat, n: nat): nat
    decreases n
  {
    if n == 0 then count else CountAfter(QuotaStep(count, limit).count, limit, n - 1)
  }

  /** However often the button is pressed on one day, the count climbs one
      per press up to the limit and no further; a count already at or past
      the limit (after a switch to a smaller plan) stays where it is. */
  lemma {:induction false} QuotaCaps(count: nat, limit: nat, n: nat)
    ensures CountAfter(count, limit, n) == if count >= limit then count
                                          else if count + n <= limit then count + n
                                          else limit
    decreases n
  {
    if n > 0 {
      QuotaCaps(QuotaStep(count, limit).count, limit, n - 1);
    }
  }
}
